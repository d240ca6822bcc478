/** The few JavaScript value rules the dashboard's code leans on: optional
    values, string truthiness, the `x || ""` default, template-literal
    rendering of a possibly undefined value, `String.prototype.includes`
    and the first-occurrence `String.prototype.replace`. */
module Js {

  /** An optional value: `undefined`/`null` is `None`. */
  datatype Option<+T> = None | Some(value: T) {
    function GetOr(default: T): T {
      match this
      case Some(v) => v
      case None => default
    }
  }

  /** `x || ""` for a possibly absent string. */
  function OrEmpty(x: Option<string>): (r: string)
    ensures x.Some? ==> r == x.value
    ensures x.None? ==> r == ""
  {
    x.GetOr("")
  }

  /** JavaScript truthiness of a possibly absent string. */
  predicate Truthy(x: Option<string>) {
    x.Some? && x.value != ""
  }

  /** A possibly undefined value spliced into a template literal. */
  function Template(x: Option<string>): string {
    match x
    case Some(s) => s
    case None => "undefined"
  }

  /** `sub` occurs in `s` at index `i`. */
  ghost predicate OccursAt(s: string, sub: string, i: int) {
    0 <= i && i + |sub| <= |s| && s[i..i + |sub|] == sub
  }

  /** `s.includes(sub)`: never true of a longer `sub`, and of an equally
      long one only when the two are equal. */
  function Includes(s: string, sub: string): (r: bool)
    ensures r ==> |sub| <= |s|
    ensures r && |sub| == |s| ==> sub == s
  {
    sub <= s || (|s| > 0 && Includes(s[1..], sub))
  }

  /** Dropping the first character shifts every occurrence left by one. */
  lemma OccursShift(s: string, sub: string)
    requires |s| > 0
    ensures forall j :: 1 <= j ==> (OccursAt(s, sub, j) <==> OccursAt(s[1..], sub, j - 1))
  {
    forall j | 1 <= j
      ensures OccursAt(s, sub, j) <==> OccursAt(s[1..], sub, j - 1)
    {
      if j + |sub| <= |s| {
        var shifted, direct := s[1..][j - 1..j - 1 + |sub|], s[j..j + |sub|];
        forall t | 0 <= t < |sub| ensures shifted[t] == direct[t] {
        }
        assert shifted == direct;
      }
    }
  }

  lemma {:induction false} IncludesIff(s: string, sub: string)
    ensures Includes(s, sub) <==> exists i :: OccursAt(s, sub, i)
  {
    if sub <= s {
      assert OccursAt(s, sub, 0);
    } else if |s| > 0 {
      IncludesIff(s[1..], sub);
      OccursShift(s, sub);
      if Includes(s[1..], sub) {
        var i :| OccursAt(s[1..], sub, i);
        assert OccursAt(s, sub, i + 1);
      }
    }
  }

  /** Making a string longer on either side keeps every substring it had. */
  lemma IncludesExtend(pre: string, s: string, post: string, sub: string)
    requires Includes(s, sub)
    ensures Includes(pre + s + post, sub)
  {
    IncludesIff(s, sub);
    var i :| OccursAt(s, sub, i);
    assert (pre + s + post)[|pre| + i..|pre| + i + |sub|] == s[i..i + |sub|];
    assert OccursAt(pre + s + post, sub, |pre| + i);
    IncludesIff(pre + s + post, sub);
  }

  /** A string that lacks one of `sub`'s characters cannot include `sub`. */
  lemma MissingCharExcludes(s: string, sub: string, k: nat)
    requires k < |sub| && sub[k] !in s
    ensures !Includes(s, sub)
  {
    IncludesIff(s, sub);
  }

  /** Index of the first occurrence of `sub` in `s`. */
  function FirstIndex(s: string, sub: string): (i: nat)
    requires Includes(s, sub)
    ensures OccursAt(s, sub, i)
    ensures forall j :: 0 <= j < i ==> !OccursAt(s, sub, j)
  {
    if sub <= s then 0
    else
      var k := FirstIndex(s[1..], sub);
      OccursShift(s, sub);
      k + 1
  }

  /** `s.replace(pat, rep)` with a string pattern: only the first occurrence
      is replaced. */
  function ReplaceFirst(s: string, pat: string, rep: string): (r: string)
    ensures |r| == if Includes(s, pat) then |s| - |pat| + |rep| else |s|
  {
    if pat <= s then rep + s[|pat|..]
    else if |s| == 0 then s
    else [s[0]] + ReplaceFirst(s[1..], pat, rep)
  }

  /** Without an occurrence, `replace` returns its input. */
  lemma {:induction false} ReplaceFirstAbsent(s: string, pat: string, rep: string)
    requires !Includes(s, pat)
    ensures ReplaceFirst(s, pat, rep) == s
  {
    if |s| > 0 {
      ReplaceFirstAbsent(s[1..], pat, rep);
    }
  }

  /** With an occurrence, `replace` splices `rep` over the first one only. */
  lemma {:induction false} ReplaceFirstSplices(s: string, pat: string, rep: string)
    requires Includes(s, pat)
    ensures ReplaceFirst(s, pat, rep)
         == s[..FirstIndex(s, pat)] + rep + s[FirstIndex(s, pat) + |pat|..]
  {
    if !(pat <= s) {
      ReplaceFirstSplices(s[1..], pat, rep);
      var k := FirstIndex(s[1..], pat);
      assert FirstIndex(s, pat) == k + 1;
      assert s[..k + 1] == [s[0]] + s[1..][..k];
      assert s[k + 1 + |pat|..] == s[1..][k + |pat|..];
    }
  }
}
