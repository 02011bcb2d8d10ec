/** The reason shown when the bot is kicked (bot.js:191-196): take the parsed
    payload's `text`, fall back to `extra[0].text` when `text` is empty and
    `extra` is present, then delete every formatting code (`/§./g`). */
module KickReason {
  import opened Wrappers

  /** An element of the payload's `extra` array; `text` may be missing. */
  datatype Component = Component(text: Option<string>)

  /** The already-parsed kick payload. `extra` is None when absent or falsy;
      any array, even an empty one, is present. */
  datatype KickPayload = KickPayload(text: Option<string>, extra: Option<seq<Component>>)

  datatype KickError =
    | ReasonNotAString   // the chosen text is undefined, so `.replace` throws
    | ExtraIsEmpty       // `extra[0]` is undefined, so `.text` throws

  /** The formatting-code marker, the section sign. */
  const Section: char := '\U{00A7}'

  /** The characters JavaScript's `.` refuses to match. */
  predicate IsLineTerminator(c: char) {
    c == '\n' || c == '\r' || c == '\U{2028}' || c == '\U{2029}'
  }

  /** `s` starts with a formatting code: the marker and one more character
      that is not a line break. */
  predicate StartsWithCode(s: string) {
    |s| >= 2 && s[0] == Section && !IsLineTerminator(s[1])
  }

  /** No formatting code left: every marker is last or before a line break. */
  predicate Clean(s: string) {
    forall j :: 0 <= j < |s| ==> !StartsWithCode(s[j..])
  }

  /** `r` is `s` with some characters deleted and the rest in their order. */
  ghost predicate Subsequence(r: string, s: string)
    decreases |s|
  {
    if |r| == 0 then true
    else if |s| == 0 then false
    else (r[0] == s[0] && Subsequence(r[1..], s[1..])) || Subsequence(r, s[1..])
  }

  /** `s.replace(/§./g, '')`: scanning left to right, each formatting code is
      deleted with the character after its marker; everything else is kept. */
  function Strip(s: string): (r: string)
    ensures |r| <= |s|
    ensures Subsequence(r, s)
    ensures Clean(r)
    ensures |s| > 0 && !StartsWithCode(s) ==> |r| > 0 && r[0] == s[0]
    decreases |s|
  {
    if |s| == 0 then ""
    else if StartsWithCode(s) then Strip(s[2..])
    else
      var t := Strip(s[1..]);
      assert Clean([s[0]] + t) by {
        forall j | 0 <= j < |[s[0]] + t|
          ensures !StartsWithCode(([s[0]] + t)[j..])
        {
          if j > 0 {
            assert ([s[0]] + t)[j..] == t[j - 1..];
          }
        }
      }
      [s[0]] + t
  }

  /** A string without formatting codes is left unchanged. */
  lemma {:induction false} StripKeepsClean(s: string)
    requires Clean(s)
    ensures Strip(s) == s
    decreases |s|
  {
    if |s| > 0 {
      assert !StartsWithCode(s[0..]);
      assert Clean(s[1..]) by {
        forall j | 0 <= j < |s[1..]| ensures !StartsWithCode(s[1..][j..]) {
          assert s[1..][j..] == s[j + 1..];
        }
      }
      StripKeepsClean(s[1..]);
    }
  }

  /** Stripping twice changes nothing more than stripping once. */
  lemma {:induction false} StripIdempotent(s: string)
    ensures Strip(Strip(s)) == Strip(s)
  {
    StripKeepsClean(Strip(s));
  }

  /** Text without any marker is shown exactly as sent. */
  lemma {:induction false} NoMarkerUnchanged(s: string)
    requires Section !in s
    ensures Strip(s) == s
  {
    assert Clean(s) by {
      forall j | 0 <= j < |s| ensures !StartsWithCode(s[j..]) {
        assert s[j..][0] == s[j];
      }
    }
    StripKeepsClean(s);
  }

  /** A formatting code in front of `t` disappears and the rest is stripped
      as if it stood alone. */
  lemma StripDropsLeadingCode(c: char, t: string)
    requires !IsLineTerminator(c)
    ensures Strip([Section, c] + t) == Strip(t)
  {
    assert ([Section, c] + t)[2..] == t;
  }

  /** Stripping works piece by piece: a prefix that does not end in a marker
      is stripped on its own and the rest after it, so every character outside
      a formatting code survives, in place. */
  lemma {:induction false} StripAppend(a: string, b: string)
    requires |a| == 0 || a[|a| - 1] != Section
    ensures Strip(a + b) == Strip(a) + Strip(b)
    decreases |a|
  {
    if |a| == 0 {
      assert a + b == b;
    } else if StartsWithCode(a) {
      StripAppendCode(a, b);
    } else {
      StripAppendKeep(a, b);
    }
  }

  lemma {:induction false} StripAppendCode(a: string, b: string)
    requires StartsWithCode(a) && a[|a| - 1] != Section
    ensures Strip(a + b) == Strip(a) + Strip(b)
    decreases |a|, 0
  {
    var ab := a + b;
    assert ab[0] == a[0] && ab[1] == a[1];
    assert ab[2..] == a[2..] + b;
    StripAppend(a[2..], b);
  }

  lemma {:induction false} StripAppendKeep(a: string, b: string)
    requires |a| > 0 && !StartsWithCode(a) && a[|a| - 1] != Section
    ensures Strip(a + b) == Strip(a) + Strip(b)
    decreases |a|, 0
  {
    var ab := a + b;
    assert ab[0] == a[0];
    assert !StartsWithCode(ab) by {
      if |a| >= 2 { assert ab[1] == a[1]; }
    }
    assert ab[1..] == a[1..] + b;
    StripAppend(a[1..], b);
    StripKeepStep(ab);
    StripKeepStep(a);
    ConcatAssociates([a[0]], Strip(a[1..]), Strip(b));
  }

  lemma ConcatAssociates(x: string, y: string, z: string)
    ensures x + (y + z) == (x + y) + z
  {
  }

  lemma StripKeepStep(s: string)
    requires |s| > 0 && !StartsWithCode(s)
    ensures Strip(s) == [s[0]] + Strip(s[1..])
  {
  }

  /** The text chosen for the reason (bot.js:192-195), before stripping. */
  function ReasonText(p: KickPayload): (r: Result<string, KickError>)
    // a non-empty text, or an empty one with no extra, is used as it is
    ensures p.text.Some? && (p.text.value != "" || p.extra.None?) ==> r == Ok(p.text.value)
    // an empty text with extra falls back to the first extra element only
    ensures p.text == Some("") && p.extra.Some? && |p.extra.value| > 0 ==>
      r == (if p.extra.value[0].text.Some? then Ok(p.extra.value[0].text.value) else Err(ReasonNotAString))
    ensures p.text == Some("") && p.extra == Some([]) ==> r == Err(ExtraIsEmpty)
    ensures p.text.None? ==> r == Err(ReasonNotAString)
  {
    match p.text
    case None => Err(ReasonNotAString)
    case Some(t) =>
      if t == "" && p.extra.Some? then
        if |p.extra.value| == 0 then Err(ExtraIsEmpty)
        else if p.extra.value[0].text.None? then Err(ReasonNotAString)
        else Ok(p.extra.value[0].text.value)
      else Ok(t)
  }

  /** The reason as logged and relayed: the chosen text with formatting removed. */
  function CleanReason(p: KickPayload): (r: Result<string, KickError>)
    ensures r.Ok? <==> ReasonText(p).Ok?
    ensures r.Err? ==> r == ReasonText(p)
    ensures r.Ok? ==> Clean(r.value) && Subsequence(r.value, ReasonText(p).value)
    ensures r.Ok? ==> r.value == Strip(ReasonText(p).value)
  {
    match ReasonText(p)
    case Ok(t) => Ok(Strip(t))
    case Err(e) => Err(e)
  }

  /** An empty text falls back to the first `extra` element. */
  lemma FallbackReason()
    ensures CleanReason(KickPayload(Some(""), Some([Component(Some("Banned"))]))) == Ok("Banned")
  {
    NoMarkerUnchanged("Banned");
  }

  /** A colour code in front of the primary text is removed. */
  lemma ColourCodeRemoved()
    ensures CleanReason(KickPayload(Some([Section] + "cKicked"), None)) == Ok("Kicked")
  {
    var s := [Section] + "cKicked";
    assert s == [Section, 'c'] + "Kicked";
    StripDropsLeadingCode('c', "Kicked");
    NoMarkerUnchanged("Kicked");
    assert ReasonText(KickPayload(Some(s), None)) == Ok(s);
  }
}
