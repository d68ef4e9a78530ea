/** The string primitives the handlers use: `split` on one character,
    `indexOf`, replacing the first occurrence of a substring, and ASCII
    lower-casing. */
module Strings {
  import opened Js

  /** `s.split(sep)` for a one-character separator: the pieces between separators, in order. */
  function Split(s: string, sep: char): (parts: seq<string>)
    ensures |parts| >= 1
    ensures forall k :: 0 <= k < |parts| ==> sep !in parts[k]
  {
    if |s| == 0 then [""]
    else
      var rest := Split(s[1..], sep);
      if s[0] == sep then [""] + rest
      else [[s[0]] + rest[0]] + rest[1..]
  }

  /** Gluing the pieces back together with the separator. */
  function Join(parts: seq<string>, sep: char): string
  {
    if |parts| == 0 then ""
    else if |parts| == 1 then parts[0]
    else parts[0] + [sep] + Join(parts[1..], sep)
  }

  /** Splitting loses nothing: joining the pieces gives the original string. */
  lemma {:induction false} SplitJoin(s: string, sep: char)
    ensures Join(Split(s, sep), sep) == s
  {
    if |s| > 0 {
      var rest := Split(s[1..], sep);
      SplitJoin(s[1..], sep);
      if s[0] == sep {
        assert Split(s, sep)[1..] == rest;
      } else {
        var parts := Split(s, sep);
        if |rest| > 1 {
          assert parts[1..] == rest[1..];
        }
      }
    }
  }

  /** Joining pieces that hold no separator and splitting again gives the pieces back. */
  lemma {:induction false} JoinSplit(parts: seq<string>, sep: char)
    requires |parts| >= 1
    requires forall k :: 0 <= k < |parts| ==> sep !in parts[k]
    ensures Split(Join(parts, sep), sep) == parts
    decreases |parts|
  {
    if |parts| == 1 {
      SplitWithoutSeparator(parts[0], sep);
    } else {
      assert sep !in parts[0];
      JoinSplit(parts[1..], sep);
      SplitAfterHead(parts[0], sep, Join(parts[1..], sep));
      assert [parts[0]] + parts[1..] == parts;
    }
  }

  /** A string without the separator is one piece. */
  lemma {:induction false} SplitWithoutSeparator(s: string, sep: char)
    requires sep !in s
    ensures Split(s, sep) == [s]
  {
    if |s| > 0 {
      assert sep !in s[1..] by {
        forall k | 0 <= k < |s[1..]| ensures s[1..][k] != sep { assert s[1..][k] == s[k + 1]; }
      }
      SplitWithoutSeparator(s[1..], sep);
      assert s[0] != sep;
      assert [s[0]] + s[1..] == s;
    }
  }

  /** A separator after a separator-free head splits the head off as the first piece. */
  lemma {:induction false} SplitAfterHead(a: string, sep: char, b: string)
    requires sep !in a
    ensures Split(a + [sep] + b, sep) == [a] + Split(b, sep)
  {
    var s := a + [sep] + b;
    if |a| == 0 {
      assert s[1..] == b;
    } else {
      assert s[1..] == a[1..] + [sep] + b;
      assert sep !in a[1..] by {
        forall k | 0 <= k < |a[1..]| ensures a[1..][k] != sep { assert a[1..][k] == a[k + 1]; }
      }
      SplitAfterHead(a[1..], sep, b);
      assert [a[0]] + a[1..] == a;
    }
  }

  /** `pat` occurs in `s` starting at position `i`. */
  predicate OccursAt(s: string, pat: string, i: nat)
  {
    i + |pat| <= |s| && s[i..i + |pat|] == pat
  }

  /** The first occurrence of `pat` in `s` at or after position `i`. */
  function FindFrom(s: string, pat: string, i: nat): (r: Option<nat>)
    requires i <= |s|
    ensures r.Some? ==> i <= r.value && OccursAt(s, pat, r.value)
    ensures r.Some? ==> forall j :: i <= j < r.value ==> !OccursAt(s, pat, j)
    ensures r.None? ==> forall j :: i <= j <= |s| ==> !OccursAt(s, pat, j)
    decreases |s| - i
  {
    if OccursAt(s, pat, i) then Some(i)
    else if i == |s| then None
    else FindFrom(s, pat, i + 1)
  }

  /** `s.indexOf(pat)`, with absence as None. */
  function IndexOf(s: string, pat: string): (r: Option<nat>)
    ensures r.Some? ==> OccursAt(s, pat, r.value) && forall j :: 0 <= j < r.value ==> !OccursAt(s, pat, j)
    ensures r.None? ==> forall j :: 0 <= j <= |s| ==> !OccursAt(s, pat, j)
  {
    FindFrom(s, pat, 0)
  }

  /** `s.replace(pat, rep)` with the replacement taken literally: only the first
      occurrence is replaced, and a string without `pat` is returned unchanged. */
  function ReplaceFirst(s: string, pat: string, rep: string): string
  {
    match IndexOf(s, pat)
    case None => s
    case Some(i) => s[..i] + rep + s[i + |pat|..]
  }

  /** Inserting `ins` immediately before the first `pat`, which is what replacing
      `pat` by `ins + pat` does: without `pat` nothing changes; otherwise `ins`
      lands right before the first occurrence and cutting it out again gives the
      original string back. */
  lemma InsertBeforeFirst(s: string, pat: string, ins: string)
    ensures IndexOf(s, pat).None? ==> ReplaceFirst(s, pat, ins + pat) == s
    ensures IndexOf(s, pat).Some? ==>
      var i := IndexOf(s, pat).value;
      var r := ReplaceFirst(s, pat, ins + pat);
      && r == s[..i] + ins + s[i..]
      && |r| == |s| + |ins|
      && r[..i] == s[..i] && r[i..i + |ins|] == ins
      && r[..i] + r[i + |ins|..] == s
  {
    if IndexOf(s, pat).Some? {
      var i := IndexOf(s, pat).value;
      assert s[i..i + |pat|] == pat;
      assert s[i..] == pat + s[i + |pat|..];
      var r := ReplaceFirst(s, pat, ins + pat);
      assert r == s[..i] + ins + s[i..];
      assert r[i + |ins|..] == s[i..];
      assert s[..i] + s[i..] == s;
    }
  }

  /** `String.prototype.replace(pat, rep)` as JavaScript runs it when `rep` is a
      string: the replacement text is first expanded for the patterns `$$`, `$&`,
      `` $` `` and `$'` (a string pattern has no capture groups, so `$1`, `$<` and
      every other `$` stay literal). */
  function ReplaceFirstAsWritten(s: string, pat: string, rep: string): string
  {
    match IndexOf(s, pat)
    case None => s
    case Some(i) => s[..i] + Substitution(rep, pat, s[..i], s[i + |pat|..]) + s[i + |pat|..]
  }

  /** The GetSubstitution step of section 22.1.3.19.1 of ECMA-262 for a match
      with no capture groups. */
  function Substitution(rep: string, matched: string, before: string, after: string): string
  {
    if |rep| < 2 || rep[0] != '$' then
      if rep == [] then [] else [rep[0]] + Substitution(rep[1..], matched, before, after)
    else if rep[1] == '$' then "$" + Substitution(rep[2..], matched, before, after)
    else if rep[1] == '&' then matched + Substitution(rep[2..], matched, before, after)
    else if rep[1] == '`' then before + Substitution(rep[2..], matched, before, after)
    else if rep[1] == '\'' then after + Substitution(rep[2..], matched, before, after)
    else [rep[0]] + Substitution(rep[1..], matched, before, after)
  }

  /** Without a `$`, the expansion is the identity, so the two replacements agree. */
  lemma {:induction false} SubstitutionWithoutDollar(rep: string, matched: string, before: string, after: string)
    requires '$' !in rep
    ensures Substitution(rep, matched, before, after) == rep
  {
    if rep != [] {
      assert '$' !in rep[1..] by {
        forall k | 0 <= k < |rep[1..]| ensures rep[1..][k] != '$' { assert rep[1..][k] == rep[k + 1]; }
      }
      SubstitutionWithoutDollar(rep[1..], matched, before, after);
      assert rep == [rep[0]] + rep[1..];
    }
  }

  lemma AsWrittenAgreesWithoutDollar(s: string, pat: string, rep: string)
    requires '$' !in rep
    ensures ReplaceFirstAsWritten(s, pat, rep) == ReplaceFirst(s, pat, rep)
  {
    if IndexOf(s, pat).Some? {
      var i := IndexOf(s, pat).value;
      SubstitutionWithoutDollar(rep, pat, s[..i], s[i + |pat|..]);
    }
  }

  /** A `$&` inside a replacement that holds no other `$` (a config value "$&"
      inside the injected script, say) does not come out literally: the matched
      text takes the place of those two characters, so the result differs from
      the literal insertion. */
  lemma {:induction false} DollarAmpersandCounterexample(s: string, pat: string, pre: string, tail: string)
    requires IndexOf(s, pat).Some?
    requires '$' !in pre && '$' !in tail && |pat| != 2
    ensures var i := IndexOf(s, pat).value;
      var rep := pre + "$&" + tail;
      && ReplaceFirst(s, pat, rep) == s[..i] + rep + s[i + |pat|..]
      && ReplaceFirstAsWritten(s, pat, rep) == s[..i] + pre + pat + tail + s[i + |pat|..]
      && ReplaceFirstAsWritten(s, pat, rep) != ReplaceFirst(s, pat, rep)
  {
    var i := IndexOf(s, pat).value;
    var rep := pre + "$&" + tail;
    ExpandAmpersandInside(pre, tail, pat, s[..i], s[i + |pat|..]);
    var literal := ReplaceFirst(s, pat, rep);
    var expanded := ReplaceFirstAsWritten(s, pat, rep);
    assert literal == s[..i] + rep + s[i + |pat|..];
    assert expanded == s[..i] + (pre + pat + tail) + s[i + |pat|..];
    assert |literal| != |expanded|;
  }

  /** The expansion copies the `$`-free text before a `$&`, puts the matched text
      in its place, and copies the `$`-free rest. */
  lemma {:induction false} ExpandAmpersandInside(pre: string, tail: string, matched: string, before: string, after: string)
    requires '$' !in pre && '$' !in tail
    ensures Substitution(pre + "$&" + tail, matched, before, after) == pre + matched + tail
    decreases |pre|
  {
    if pre == [] {
      assert pre + "$&" + tail == "$&" + tail;
      ExpandAmpersand(tail, matched, before, after);
    } else {
      var rep := pre + "$&" + tail;
      assert rep[0] == pre[0] && rep[0] != '$';
      assert rep[1..] == pre[1..] + "$&" + tail;
      assert '$' !in pre[1..] by {
        forall k | 0 <= k < |pre[1..]| ensures pre[1..][k] != '$' { assert pre[1..][k] == pre[k + 1]; }
      }
      ExpandAmpersandInside(pre[1..], tail, matched, before, after);
      assert pre == [pre[0]] + pre[1..];
    }
  }

  lemma ExpandAmpersand(tail: string, matched: string, before: string, after: string)
    requires '$' !in tail
    ensures Substitution("$&" + tail, matched, before, after) == matched + tail
  {
    var rep := "$&" + tail;
    assert rep[0] == '$' && rep[1] == '&' && rep[2..] == tail;
    SubstitutionWithoutDollar(tail, matched, before, after);
  }

  predicate IsUpperAscii(c: char)
  {
    'A' <= c <= 'Z'
  }

  function LowerChar(c: char): (r: char)
    ensures !IsUpperAscii(r)
    ensures !IsUpperAscii(c) ==> r == c
  {
    if IsUpperAscii(c) then (c as int + 32) as char else c
  }

  /** `s.toLowerCase()` on the ASCII letters. */
  function Lower(s: string): (r: string)
    ensures |r| == |s|
    ensures forall i :: 0 <= i < |s| ==> r[i] == LowerChar(s[i])
  {
    seq(|s|, i requires 0 <= i < |s| => LowerChar(s[i]))
  }

  predicate IsLower(s: string)
  {
    forall i :: 0 <= i < |s| ==> !IsUpperAscii(s[i])
  }

  /** Lower-casing yields a lower-case string and changes nothing already lower-case,
      so two spellings that differ only in case become the same key. */
  lemma LowerIsNormal(s: string)
    ensures IsLower(Lower(s))
    ensures Lower(Lower(s)) == Lower(s)
    ensures IsLower(s) ==> Lower(s) == s
  {
  }
}
