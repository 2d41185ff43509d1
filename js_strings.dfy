/**
 * The JavaScript string built-ins the request handler relies on, with ECMAScript's semantics:
 * `split` and `join` with a one-character separator, `substr`, `indexOf` and `replace` with a
 * string pattern (whose replacement text is a template, not a literal).
 * A `char` stands for one UTF-16 code unit.
 */
module JsStrings {
  import opened Wrappers

  function Min(a: int, b: int): int { if a <= b then a else b }
  function Max(a: int, b: int): int { if a <= b then b else a }

  /** The position of the first `c` in `s`, or `|s|` when `s` has none. */
  function FirstIndex(s: string, c: char): (i: nat)
    ensures i <= |s|
    ensures i < |s| ==> s[i] == c
    ensures forall j :: 0 <= j < i ==> s[j] != c
  {
    if |s| == 0 then 0
    else if s[0] == c then 0
    else 1 + FirstIndex(s[1..], c)
  }

  /** The three properties of FirstIndex determine it. */
  lemma FirstIndexUnique(s: string, c: char, i: nat)
    requires i <= |s|
    requires i < |s| ==> s[i] == c
    requires forall j :: 0 <= j < i ==> s[j] != c
    ensures FirstIndex(s, c) == i
  {
  }

  lemma FirstIndexAbsent(s: string, c: char)
    ensures FirstIndex(s, c) == |s| <==> c !in s
  {
    var i := FirstIndex(s, c);
    if c in s {
      var k :| 0 <= k < |s| && s[k] == c;
      assert i <= k;
    }
  }

  /** A prefix without the separator shifts the first separator of the rest by its length. */
  lemma FirstIndexAfter(a: string, b: string, c: char)
    requires c !in a
    ensures FirstIndex(a + b, c) == |a| + FirstIndex(b, c)
  {
    var s, i := a + b, |a| + FirstIndex(b, c);
    forall j | 0 <= j < i ensures s[j] != c {
      if j < |a| {
        assert s[j] == a[j];
      } else {
        assert s[j] == b[j - |a|];
      }
    }
    FirstIndexUnique(s, c, i);
  }

  /** A separator inside the prefix is the first separator of the whole. */
  lemma FirstIndexWithin(a: string, b: string, c: char)
    requires c in a
    ensures FirstIndex(a + b, c) == FirstIndex(a, c)
  {
    var i := FirstIndex(a, c);
    FirstIndexAbsent(a, c);
    forall j | 0 <= j < i ensures (a + b)[j] != c {
      assert (a + b)[j] == a[j];
    }
    FirstIndexUnique(a + b, c, i);
  }

  /** `s.split(sep)`: the pieces between separators, in order. */
  function Split(s: string, sep: char): (parts: seq<string>)
    ensures |parts| >= 1
    ensures forall k :: 0 <= k < |parts| ==> sep !in parts[k]
    decreases |s|
  {
    var i := FirstIndex(s, sep);
    if i == |s| then
      FirstIndexAbsent(s, sep);
      [s]
    else
      assert sep !in s[..i] by {
        forall k | 0 <= k < i ensures s[..i][k] != sep { }
      }
      [s[..i]] + Split(s[i + 1..], sep)
  }

  /** `parts.join(sep)`; an empty list joins to the empty string. */
  function Join(parts: seq<string>, sep: char): (r: string)
    ensures |parts| == 0 ==> r == ""
    ensures |parts| >= 1 ==> |parts[0]| <= |r| && r[..|parts[0]|] == parts[0]
    ensures |parts| >= 2 ==> |parts[0]| < |r| && r[|parts[0]|] == sep
  {
    if |parts| == 0 then ""
    else if |parts| == 1 then parts[0]
    else parts[0] + [sep] + Join(parts[1..], sep)
  }

  /** The first piece is the text before the first separator, the whole string if there is none. */
  lemma SplitHead(s: string, sep: char)
    ensures Split(s, sep)[0] == s[..FirstIndex(s, sep)]
  {
  }

  /** `split` yields a second piece exactly when the separator occurs. */
  lemma SplitHasSecond(s: string, sep: char)
    ensures |Split(s, sep)| >= 2 <==> sep in s
  {
    FirstIndexAbsent(s, sep);
  }

  /** After the first piece come the pieces of the text after the first separator. */
  lemma SplitTail(s: string, sep: char)
    requires sep in s
    ensures Split(s, sep)[1..] == Split(s[FirstIndex(s, sep) + 1..], sep)
  {
    FirstIndexAbsent(s, sep);
  }

  /** Joining the pieces of a split gives back the original string. */
  lemma {:induction false} JoinSplit(s: string, sep: char)
    ensures Join(Split(s, sep), sep) == s
    decreases |s|
  {
    var i := FirstIndex(s, sep);
    if i < |s| {
      var rest := Split(s[i + 1..], sep);
      JoinSplit(s[i + 1..], sep);
      assert Split(s, sep) == [s[..i]] + rest;
      assert ([s[..i]] + rest)[1..] == rest;
      assert s == s[..i] + [sep] + s[i + 1..];
    }
  }

  /** Joining the pieces after the first gives the text after the first separator. */
  lemma JoinSplitTail(s: string, sep: char)
    ensures Join(Split(s, sep)[1..], sep) == s[Min(FirstIndex(s, sep) + 1, |s|)..]
  {
    if sep in s {
      SplitTail(s, sep);
      JoinSplit(s[FirstIndex(s, sep) + 1..], sep);
    } else {
      FirstIndexAbsent(s, sep);
    }
  }

  /** A separator-free piece followed by the separator splits off as the first piece. */
  lemma SplitCons(a: string, b: string, sep: char)
    requires sep !in a
    ensures Split(a + [sep] + b, sep) == [a] + Split(b, sep)
  {
    var s := a + [sep] + b;
    assert s == a + ([sep] + b);
    FirstIndexAfter(a, [sep] + b, sep);
    assert FirstIndex(s, sep) == |a|;
    assert s[..|a|] == a;
    assert s[|a| + 1..] == b;
  }

  /** Splitting a join of separator-free pieces gives back the pieces. */
  lemma {:induction false} SplitJoin(parts: seq<string>, sep: char)
    requires |parts| >= 1
    requires forall k :: 0 <= k < |parts| ==> sep !in parts[k]
    ensures Split(Join(parts, sep), sep) == parts
  {
    if |parts| == 1 {
      FirstIndexAbsent(parts[0], sep);
    } else {
      SplitCons(parts[0], Join(parts[1..], sep), sep);
      SplitJoin(parts[1..], sep);
      assert parts == [parts[0]] + parts[1..];
    }
  }

  /**
   * `s.substr(start, length)` (ECMAScript Annex B): a negative start counts from the end,
   * the start is clamped to the string and the length to what remains.
   */
  function Substr(s: string, start: int, length: int): (r: string)
    ensures var from := if start < 0 then Max(|s| + start, 0) else Min(start, |s|);
      && |r| == Min(Max(length, 0), |s| - from)
      && r == s[from..from + |r|]
  {
    var size := |s|;
    var from := if start < 0 then Max(size + start, 0) else Min(start, size);
    var count := Min(Max(length, 0), size);
    s[from..Min(from + count, size)]
  }

  /** `p` occurs in `s` starting at position `j`. */
  predicate OccursAt(s: string, p: string, j: int)
  {
    0 <= j && j + |p| <= |s| && s[j..j + |p|] == p
  }

  lemma OccursShift(s: string, p: string, j: int)
    requires |s| > 0 && 1 <= j
    ensures OccursAt(s, p, j) == OccursAt(s[1..], p, j - 1)
  {
    if j + |p| <= |s| {
      assert s[j..j + |p|] == s[1..][j - 1..j - 1 + |p|];
    }
  }

  /** `s.indexOf(p)`: the first position at which `p` occurs in `s`. */
  function IndexOf(s: string, p: string): (r: Option<nat>)
    ensures r.Some? ==> OccursAt(s, p, r.value)
    ensures r.Some? ==> forall j :: 0 <= j < r.value ==> !OccursAt(s, p, j)
    ensures r.None? ==> forall j :: !OccursAt(s, p, j)
    decreases |s|
  {
    if |p| <= |s| && s[..|p|] == p then Some(0)
    else if |s| == 0 then None
    else
      assert forall j :: 1 <= j ==> OccursAt(s, p, j) == OccursAt(s[1..], p, j - 1) by {
        forall j | 1 <= j ensures OccursAt(s, p, j) == OccursAt(s[1..], p, j - 1) {
          OccursShift(s, p, j);
        }
      }
      match IndexOf(s[1..], p)
      case None => None
      case Some(i) => Some(i + 1)
  }

  /**
   * The replacement text of `replace` for a string pattern (GetSubstitution, section 22.1.3.18.1
   * of ECMAScript 2022, with no captures): `$$` stands for `$`, `$&` for the matched text,
   * `` $` `` for the text before the match and `$'` for the text after it; every other
   * character, `$` included, stands for itself. A template without `$` expands to itself.
   */
  function Expand(template: string, matched: string, before: string, after: string): (r: string)
    ensures '$' !in template ==> r == template
    decreases |template|
  {
    if |template| == 0 then ""
    else if template[0] == '$' && |template| >= 2 && template[1] in "$&`'" then
      var piece := match template[1]
        case '$' => "$"
        case '&' => matched
        case '`' => before
        case _ => after;
      piece + Expand(template[2..], matched, before, after)
    else
      assert '$' !in template ==> '$' !in template[1..] by {
        if '$' !in template {
          forall k | 0 <= k < |template| - 1 ensures template[1..][k] != '$' {
            assert template[1..][k] == template[k + 1];
          }
        }
      }
      assert template == [template[0]] + template[1..];
      [template[0]] + Expand(template[1..], matched, before, after)
  }

  /** A template that starts with `$&` and has no other `$` expands to the match and the rest. */
  lemma ExpandLeadingMatch(template: string, matched: string, before: string, after: string)
    requires |template| >= 2 && template[..2] == "$&" && '$' !in template[2..]
    ensures Expand(template, matched, before, after) == matched + template[2..]
  {
    assert template[0] == '$' && template[1] == '&';
  }

  /** `s.replace(p, replacement)` for a string `p`: the first occurrence only, template expanded. */
  function Replace(s: string, p: string, replacement: string): (r: string)
    ensures IndexOf(s, p).None? ==> r == s
    ensures IndexOf(s, p).Some? ==>
      var i := IndexOf(s, p).value;
      var after := s[i + |p|..];
      var expanded := Expand(replacement, p, s[..i], after);
      && |r| == i + |expanded| + |after|
      && r[..i] == s[..i]
      && r[i..i + |expanded|] == expanded
      && r[i + |expanded|..] == after
  {
    match IndexOf(s, p)
    case None => s
    case Some(i) =>
      var after := s[i + |p|..];
      s[..i] + Expand(replacement, p, s[..i], after) + after
  }

  /** The first occurrence of `p` replaced by `replacement` taken literally. */
  function ReplaceLiteral(s: string, p: string, replacement: string): string
  {
    match IndexOf(s, p)
    case None => s
    case Some(i) => s[..i] + replacement + s[i + |p|..]
  }

  /** Without `$` in the replacement, `replace` is literal replacement. */
  lemma ReplaceWithoutDollar(s: string, p: string, replacement: string)
    requires '$' !in replacement
    ensures Replace(s, p, replacement) == ReplaceLiteral(s, p, replacement)
  {
  }
}
