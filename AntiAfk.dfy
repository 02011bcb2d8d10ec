/** The hit-or-swing idle behaviour (bot.js:117-134): on each tick, if mob
    attacks are enabled and an eligible entity is around, attack the nearest
    one; otherwise swing the right arm. */
module AntiAfk {
  import opened Wrappers

  /** An entity as the bot sees it: an identity and its type string. */
  datatype Entity = Entity(id: nat, kind: string)

  /** The entity types the attack filter rejects. */
  const ExcludedKinds: set<string> := {"object", "player", "global", "orb", "other"}

  /** The filter passed to the nearest-entity query. */
  predicate Eligible(e: Entity) {
    e.kind !in ExcludedKinds
  }

  /** The nearest-entity query for the filter, over the entities listed
      nearest first: the first eligible one, if any. */
  function NearestEligible(byDistance: seq<Entity>): (r: Option<Entity>)
    ensures r.None? <==> forall j :: 0 <= j < |byDistance| ==> !Eligible(byDistance[j])
    ensures r.Some? ==> (exists j :: 0 <= j < |byDistance| && byDistance[j] == r.value &&
                                     Eligible(r.value) && forall k :: 0 <= k < j ==> !Eligible(byDistance[k]))
  {
    if |byDistance| == 0 then None
    else if Eligible(byDistance[0]) then Some(byDistance[0])
    else
      var r := NearestEligible(byDistance[1..]);
      if r.Some? then
        var j :| 0 <= j < |byDistance[1..]| && byDistance[1..][j] == r.value &&
          Eligible(r.value) && forall k :: 0 <= k < j ==> !Eligible(byDistance[1..][k]);
        assert byDistance[j + 1] == r.value;
        assert forall k :: 0 <= k < j + 1 ==> !Eligible(byDistance[k]) by {
          forall k | 0 <= k < j + 1 ensures !Eligible(byDistance[k]) {
            if k > 0 { assert byDistance[k] == byDistance[1..][k - 1]; }
          }
        }
        r
      else
        assert forall j :: 0 <= j < |byDistance| ==> !Eligible(byDistance[j]) by {
          forall j | 0 <= j < |byDistance| ensures !Eligible(byDistance[j]) {
            if j > 0 { assert byDistance[j] == byDistance[1..][j - 1]; }
          }
        }
        r
  }

  /** What one tick does: exactly one of the two actions. */
  datatype HitAction = Attack(target: Entity) | SwingArm

  /** One tick of the hit timer. */
  function HitTick(attackMobs: bool, byDistance: seq<Entity>): (a: HitAction)
    ensures a.Attack? <==> attackMobs && exists j :: 0 <= j < |byDistance| && Eligible(byDistance[j])
    ensures a.Attack? ==> Eligible(a.target) && a.target in byDistance
    // the target is the nearest eligible entity: everything listed before it is filtered out
    ensures a.Attack? ==> (exists j :: 0 <= j < |byDistance| && byDistance[j] == a.target &&
                                       forall k :: 0 <= k < j ==> !Eligible(byDistance[k]))
  {
    if attackMobs then
      match NearestEligible(byDistance)
      case Some(e) => Attack(e)
      case None => SwingArm
    else SwingArm
  }
}
