/**
 * The action parser of agent.py (`CodeAgent._extract_action`): recover the
 * one JSON object that follows the `Action:` marker in a model response.
 *
 * The end of the object is found by counting braces, without regard to
 * string literals, so a `}` inside a quoted argument closes the object
 * early. Decoding the candidate text is Python's `json.loads`, taken here as
 * an arbitrary partial function `decode`.
 */
module ActionParser {
  import opened Wrappers
  import opened Strings
  import opened Json

  const ACTION_MARKER := "Action:"

  /** How one character changes the brace depth: only `{` and `}` do. */
  function Delta(c: char): int {
    if c == '{' then 1 else if c == '}' then -1 else 0
  }

  /** Net brace depth at the end of a text: opened braces minus closed ones. */
  function Depth(s: string): int {
    if |s| == 0 then 0 else Depth(s[..|s| - 1]) + Delta(s[|s| - 1])
  }

  /** Number of occurrences of `c` in `s`. */
  function Count(s: string, c: char): nat {
    if |s| == 0 then 0 else Count(s[..|s| - 1], c) + (if s[|s| - 1] == c then 1 else 0)
  }

  /** The depth is the number of `{` less the number of `}`; no other character counts. */
  lemma {:induction false} DepthCountsBraces(s: string)
    ensures Depth(s) == Count(s, '{') - Count(s, '}')
  {
    if |s| > 0 {
      DepthCountsBraces(s[..|s| - 1]);
    }
  }

  /** Extending a slice by one character moves its depth by that character's `Delta`. */
  lemma DepthStep(s: string, b: nat, i: nat)
    requires b <= i < |s|
    ensures Depth(s[b..i + 1]) == Depth(s[b..i]) + Delta(s[i])
  {
    assert s[b..i + 1][..i - b] == s[b..i];
  }

  /**
   * The brace scan from index `i`, where `depth` is the count so far: the
   * index just past the first `}` that brings the count back to zero.
   */
  function CloseFrom(s: string, i: nat, depth: int): (r: Option<nat>)
    requires i <= |s|
    ensures r.Some? ==> i < r.value <= |s| && s[r.value - 1] == '}'
    decreases |s| - i
  {
    if i == |s| then None
    else
      var d := depth + Delta(s[i]);
      if s[i] == '}' && d == 0 then Some(i + 1)
      else CloseFrom(s, i + 1, d)
  }

  /**
   * The slice `[start, end)` of the response that is handed to the decoder:
   * it starts at the first `{` at or after the first `Action:` and ends just
   * past the brace that closes it. `None` when there is no marker, no brace
   * after it, or the braces never balance.
   */
  function Span(s: string): (r: Option<(nat, nat)>)
    ensures r.Some? ==> r.value.0 < r.value.1 <= |s|
  {
    match IndexOf(s, ACTION_MARKER, 0)
    case None => None
    case Some(a) =>
      match IndexOf(s, "{", a)
      case None => None
      case Some(b) =>
        match CloseFrom(s, b, 0)
        case None => None
        case Some(e) => Some((b, e))
  }

  /** What `_extract_action` returns: the decoded candidate text, or `None`. */
  function Extract(s: string, decode: string -> Option<Value>): Option<Value> {
    match Span(s)
    case None => None
    case Some((b, e)) => decode(s[b..e])
  }

  /**
   * The brace-counting loop of `_extract_action`, from the brace at
   * `start`: the count ends at zero exactly when the scan closes the
   * object, and then `jsonEnd` is just past the closing brace.
   */
  method ScanBraces(response: string, start: nat) returns (braceCount: int, jsonEnd: nat)
    requires start < |response| && response[start] == '{'
    ensures braceCount == 0 <==> CloseFrom(response, start, 0).Some?
    ensures braceCount == 0 ==> jsonEnd == CloseFrom(response, start, 0).value
  {
    braceCount := 0;
    jsonEnd := start;
    var i := start;
    while i < |response|
      invariant start <= i <= |response|
      invariant CloseFrom(response, start, 0) == CloseFrom(response, i, braceCount)
      invariant i == start ==> braceCount == 0
      invariant i > start ==> braceCount >= 1
    {
      if response[i] == '{' {
        braceCount := braceCount + 1;
      } else if response[i] == '}' {
        braceCount := braceCount - 1;
        if braceCount == 0 {
          jsonEnd := i + 1;
          return;
        }
      }
      i := i + 1;
    }
  }

  /** `_extract_action`: find the marker, then the first brace after it, scan, and decode the slice. */
  method ExtractAction(response: string, decode: string -> Option<Value>) returns (action: Option<Value>)
    ensures action == Extract(response, decode)
  {
    var actionStart := IndexOf(response, ACTION_MARKER, 0);
    if actionStart.None? {
      return None;
    }
    var jsonStart := IndexOf(response, "{", actionStart.value);
    if jsonStart.None? {
      return None;
    }
    var start := jsonStart.value;
    assert response[start] == '{' by {
      assert response[start..start + 1] == "{";
    }
    var braceCount, jsonEnd := ScanBraces(response, start);
    if braceCount != 0 {
      return None;
    }
    action := decode(response[start..jsonEnd]);
  }

  /**
   * What the scan promises, from index `i` of a scan that started at the
   * brace `s[b]`: a result ends where the depth first returns to zero, with
   * every shorter slice still open; no result means no slice ever closes.
   */
  lemma {:induction false} CloseFromSound(s: string, b: nat, i: nat, depth: int)
    requires b <= i <= |s| && b < |s| && s[b] == '{'
    requires depth == Depth(s[b..i])
    requires forall k :: b < k <= i ==> Depth(s[b..k]) >= 1
    ensures CloseFrom(s, i, depth).Some? ==>
      var e := CloseFrom(s, i, depth).value;
      && Depth(s[b..e]) == 0
      && forall k :: b < k < e ==> Depth(s[b..k]) >= 1
    ensures CloseFrom(s, i, depth).None? ==> forall k :: b < k <= |s| ==> Depth(s[b..k]) >= 1
    decreases |s| - i
  {
    if i < |s| {
      DepthStep(s, b, i);
      var d := depth + Delta(s[i]);
      if !(s[i] == '}' && d == 0) {
        assert i == b ==> d == 1;
        assert i > b ==> Depth(s[b..i]) >= 1;
        CloseFromSound(s, b, i + 1, d);
      }
    }
  }

  /**
   * The slice the parser decodes starts at the first `{` after the first
   * marker, ends at a `}`, is balanced, and every proper prefix of it that
   * is longer than the opening brace is still open.
   */
  lemma SpanIsFirstBalancedObject(s: string)
    requires Span(s).Some?
    ensures var (b, e) := Span(s).value;
      && IndexOf(s, "{", IndexOf(s, ACTION_MARKER, 0).value) == Some(b)
      && s[b] == '{' && s[e - 1] == '}'
      && Depth(s[b..e]) == 0
      && forall k :: b < k < e ==> Depth(s[b..k]) >= 1
  {
    var b := Span(s).value.0;
    assert s[b..b + 1] == "{";
    CloseFromSound(s, b, b, 0);
  }

  /** Without the marker there is no action, whatever JSON the text holds. */
  lemma NoMarkerNoAction(s: string, decode: string -> Option<Value>)
    requires !Contains(s, ACTION_MARKER)
    ensures Extract(s, decode) == None
  {
  }

  /** With the marker but no `{` at or after it, there is no action. */
  lemma NoBraceNoAction(s: string, decode: string -> Option<Value>)
    requires Contains(s, ACTION_MARKER)
    requires forall k :: IndexOf(s, ACTION_MARKER, 0).value <= k < |s| ==> s[k] != '{'
    ensures Extract(s, decode) == None
  {
    var a := IndexOf(s, ACTION_MARKER, 0).value;
    forall k | a <= k ensures !OccursAt(s, "{", k) {
      OccursAtChar(s, '{', k);
    }
  }

  /** Every slice of `s` from `b` on is still open: more `{` than `}`. */
  predicate NeverBalances(s: string, b: nat) {
    forall k :: b < k <= |s| ==> Depth(s[b..k]) >= 1
  }

  /** A scan from a brace finds no end exactly when every slice from the brace stays open. */
  lemma ScanFailsIffNeverBalanced(s: string, b: nat)
    requires b < |s| && s[b] == '{'
    ensures CloseFrom(s, b, 0).None? <==> NeverBalances(s, b)
  {
    CloseFromSound(s, b, b, 0);
    var c := CloseFrom(s, b, 0);
    if c.Some? {
      assert Depth(s[b..c.value]) == 0;
    }
  }

  /**
   * Once a marker and a brace are found, the parser gives up exactly when
   * the depth never returns to zero before the text ends, however much
   * well-formed JSON came before the imbalance.
   */
  lemma UnbalancedIffNoSpan(s: string, a: nat, b: nat)
    requires IndexOf(s, ACTION_MARKER, 0) == Some(a)
    requires IndexOf(s, "{", a) == Some(b)
    ensures Span(s).None? <==> NeverBalances(s, b)
  {
    OccursAtChar(s, '{', b);
    ScanFailsIffNeverBalanced(s, b);
    assert Span(s).None? <==> CloseFrom(s, b, 0).None?;
  }

  /** A scan that closes within `s` closes at the same place in any extension of `s`. */
  lemma {:induction false} CloseFromExtension(s: string, t: string, i: nat, depth: int)
    requires i <= |s|
    requires CloseFrom(s, i, depth).Some?
    ensures CloseFrom(s + t, i, depth) == CloseFrom(s, i, depth)
    decreases |s| - i
  {
    assert (s + t)[i] == s[i];
    var d := depth + Delta(s[i]);
    if !(s[i] == '}' && d == 0) {
      CloseFromExtension(s, t, i + 1, d);
    }
  }

  /**
   * Text that arrives after a complete action changes nothing: the slice and
   * the decoded action stay the same. This is what lets the stream be cut
   * early without changing the outcome.
   */
  lemma ActionStableUnderExtension(s: string, t: string, decode: string -> Option<Value>)
    requires Span(s).Some?
    ensures Span(s + t) == Span(s)
    ensures Extract(s + t, decode) == Extract(s, decode)
  {
    var a := IndexOf(s, ACTION_MARKER, 0);
    IndexOfExtension(s, t, ACTION_MARKER, 0);
    var b := IndexOf(s, "{", a.value);
    IndexOfExtension(s, t, "{", a.value);
    CloseFromExtension(s, t, b.value, 0);
    var e := Span(s).value.1;
    assert (s + t)[b.value..e] == s[b.value..e];
  }

  /**
   * Braces inside string literals are counted too: in
   * `Action:{"}"}` the quoted `}` closes the object, and the decoder is
   * handed the truncated text `{"}`.
   */
  lemma BraceInStringLiteralClosesEarly()
    ensures Span("Action:{\"}\"}") == Some((7, 10))
    ensures "Action:{\"}\"}"[7..10] == "{\"}"
  {
    var s := "Action:{\"}\"}";
    assert s[..7] == ACTION_MARKER;
    assert IndexOf(s, ACTION_MARKER, 0) == Some(0) by {
      assert OccursAt(s, ACTION_MARKER, 0);
    }
    assert IndexOf(s, "{", 0) == Some(7) by {
      assert OccursAt(s, "{", 7) by { assert s[7..8] == "{"; }
      forall j | 0 <= j < 7 ensures !OccursAt(s, "{", j) {
        assert s[j..j + 1] == [ACTION_MARKER[j]];
      }
    }
    assert CloseFrom(s, 9, 1) == Some(10);
    assert CloseFrom(s, 8, 1) == Some(10);
    assert CloseFrom(s, 7, 0) == Some(10);
  }
}
