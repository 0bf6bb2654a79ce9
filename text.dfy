/** The string and array built-ins the formatter is made of (`repeat`,
    `padEnd`, `join`, `toLowerCase`, lodash `upperFirst`), over strings as
    sequences of characters, with the facts about them that the table and
    summary layouts rest on. `Split` and `StripSuffix` are not used by the
    formatter: they read its output back, so that the line structure of a
    join and the suffix structure of a field text can be stated. */
module Text {
  import opened Wrappers

  /** `c.repeat(n)` for a one-character string `c`. */
  function Repeat(c: char, n: nat): (r: string)
    ensures |r| == n
    ensures forall k :: 0 <= k < n ==> r[k] == c
  {
    if n == 0 then [] else [c] + Repeat(c, n - 1)
  }

  /** `s.padEnd(n)`: spaces appended up to length `n`; a string that is
      already at least `n` long comes back unchanged. */
  function PadEnd(s: string, n: nat): (r: string)
    ensures |r| == if |s| < n then n else |s|
    ensures r[..|s|] == s
    ensures forall k :: |s| <= k < |r| ==> r[k] == ' '
  {
    if |s| < n then s + Repeat(' ', n - |s|) else s
  }

  /** `parts.join(sep)`: the empty list joins to the empty string. */
  function Join(parts: seq<string>, sep: string): string
  {
    if |parts| == 0 then ""
    else if |parts| == 1 then parts[0]
    else parts[0] + sep + Join(parts[1..], sep)
  }

  function Sum(ws: seq<nat>): nat
  {
    if |ws| == 0 then 0 else ws[0] + Sum(ws[1..])
  }

  /** `parts` has exactly the lengths `ws`. */
  predicate HasLengths(parts: seq<string>, ws: seq<nat>)
  {
    |parts| == |ws| && forall k :: 0 <= k < |ws| ==> |parts[k]| == ws[k]
  }

  /** The position at which part `i` starts in a join whose parts have the
      lengths `ws` and whose separator has length `sepLen`. */
  function Offset(ws: seq<nat>, sepLen: nat, i: nat): nat
    requires i <= |ws|
  {
    if i == 0 then 0 else ws[0] + sepLen + Offset(ws[1..], sepLen, i - 1)
  }

  /** Every character of `s` satisfies `p`. */
  predicate AllChars(s: string, p: char -> bool)
  {
    forall k :: 0 <= k < |s| ==> p(s[k])
  }

  /** A join is as long as its parts together plus one separator between
      each two neighbours. */
  lemma {:induction false} JoinLength(parts: seq<string>, sep: string, ws: seq<nat>)
    requires HasLengths(parts, ws) && |ws| > 0
    ensures |Join(parts, sep)| == Sum(ws) + |sep| * (|ws| - 1)
  {
    if |ws| > 1 {
      JoinLength(parts[1..], sep, ws[1..]);
      assert |sep| * (|ws| - 1) == |sep| + |sep| * (|ws| - 2);
    }
  }

  /** Part `i + 1` starts one part and one separator after part `i`. */
  lemma {:induction false} OffsetNext(ws: seq<nat>, sepLen: nat, i: nat)
    requires i < |ws|
    ensures Offset(ws, sepLen, i + 1) == Offset(ws, sepLen, i) + ws[i] + sepLen
  {
    if i > 0 {
      OffsetNext(ws[1..], sepLen, i - 1);
    }
  }

  /** A slice that lies inside the right operand of a concatenation. */
  lemma SliceRight(x: string, y: string, lo: nat, hi: nat)
    requires |x| <= lo <= hi <= |x| + |y|
    ensures (x + y)[lo..hi] == y[lo - |x|..hi - |x|]
  {
    assert forall k :: 0 <= k < hi - lo ==> (x + y)[lo..hi][k] == y[lo - |x|..hi - |x|][k];
  }

  /** A join of two or more parts is the first part, the separator and the
      join of the rest. */
  lemma JoinCons(parts: seq<string>, sep: string)
    requires |parts| > 1
    ensures Join(parts, sep) == (parts[0] + sep) + Join(parts[1..], sep)
    ensures |Join(parts, sep)| == |parts[0]| + |sep| + |Join(parts[1..], sep)|
  {
  }

  /** Part `i` of a join sits at `Offset(ws, |sep|, i)`. */
  lemma {:induction false} JoinPartAt(parts: seq<string>, sep: string, ws: seq<nat>, i: nat)
    requires HasLengths(parts, ws) && i < |ws|
    ensures Offset(ws, |sep|, i) + ws[i] <= |Join(parts, sep)|
    ensures Join(parts, sep)[Offset(ws, |sep|, i)..Offset(ws, |sep|, i) + ws[i]] == parts[i]
  {
    if |ws| == 1 {
      assert Join(parts, sep) == parts[0];
    } else {
      JoinCons(parts, sep);
      var rest := Join(parts[1..], sep);
      if i == 0 {
        assert Join(parts, sep) == parts[0] + (sep + rest);
      } else {
        JoinPartAt(parts[1..], sep, ws[1..], i - 1);
        var a := Offset(ws[1..], |sep|, i - 1);
        SliceRight(parts[0] + sep, rest, |parts[0]| + |sep| + a, |parts[0]| + |sep| + a + ws[i]);
      }
    }
  }

  /** The separator follows part `i` of a join when another part comes
      after it. */
  lemma {:induction false} JoinSepAt(parts: seq<string>, sep: string, ws: seq<nat>, i: nat)
    requires HasLengths(parts, ws) && i + 1 < |ws|
    ensures Offset(ws, |sep|, i) + ws[i] + |sep| <= |Join(parts, sep)|
    ensures Join(parts, sep)[Offset(ws, |sep|, i) + ws[i]..Offset(ws, |sep|, i) + ws[i] + |sep|] == sep
  {
    JoinCons(parts, sep);
    var rest := Join(parts[1..], sep);
    if i == 0 {
      assert Join(parts, sep) == parts[0] + sep + rest;
      assert (parts[0] + sep + rest)[|parts[0]|..|parts[0]| + |sep|] == sep;
    } else {
      JoinSepAt(parts[1..], sep, ws[1..], i - 1);
      var a := Offset(ws[1..], |sep|, i - 1);
      SliceRight(parts[0] + sep, rest, |parts[0]| + |sep| + a + ws[i], |parts[0]| + |sep| + a + ws[i] + |sep|);
    }
  }

  /** Part `i` of a join sits at `Offset(ws, |sep|, i)`, and the separator
      follows it when another part comes after it. */
  lemma {:induction false} JoinAt(parts: seq<string>, sep: string, ws: seq<nat>, i: nat)
    requires HasLengths(parts, ws) && i < |ws|
    ensures Offset(ws, |sep|, i) + ws[i] <= |Join(parts, sep)|
    ensures Join(parts, sep)[Offset(ws, |sep|, i)..Offset(ws, |sep|, i) + ws[i]] == parts[i]
    ensures i + 1 < |ws| ==>
              && Offset(ws, |sep|, i) + ws[i] + |sep| <= |Join(parts, sep)|
              && Join(parts, sep)[Offset(ws, |sep|, i) + ws[i]..Offset(ws, |sep|, i) + ws[i] + |sep|] == sep
  {
    JoinPartAt(parts, sep, ws, i);
    if i + 1 < |ws| {
      JoinSepAt(parts, sep, ws, i);
    }
  }

  /** A join whose parts and separator satisfy `p` throughout satisfies `p`
      throughout. */
  lemma {:induction false} JoinAllChars(parts: seq<string>, sep: string, p: char -> bool)
    requires forall k :: 0 <= k < |parts| ==> AllChars(parts[k], p)
    requires AllChars(sep, p)
    ensures AllChars(Join(parts, sep), p)
  {
    if |parts| > 1 {
      JoinAllChars(parts[1..], sep, p);
      var rest := Join(parts[1..], sep);
      var j := parts[0] + sep + rest;
      forall k | 0 <= k < |j| ensures p(j[k]) {
        if k < |parts[0]| {
          assert j[k] == parts[0][k];
        } else if k < |parts[0]| + |sep| {
          assert j[k] == sep[k - |parts[0]|];
        } else {
          assert j[k] == rest[k - |parts[0]| - |sep|];
        }
      }
    }
  }

  /** Index of the first `c` in `s`, or `|s|` when there is none. */
  function IndexOf(s: string, c: char): (i: nat)
    ensures i <= |s|
    ensures c !in s[..i]
    ensures i < |s| ==> s[i] == c
  {
    if |s| == 0 then 0
    else if s[0] == c then 0
    else
      var i' := IndexOf(s[1..], c);
      assert s[1..][..i'] == s[1..i' + 1];
      1 + i'
  }

  /** The pieces between the occurrences of `c` (what a one-character
      `s.split(c)` gives); a string without `c` is its own single piece. */
  function Split(s: string, c: char): (r: seq<string>)
    ensures |r| > 0
    ensures forall k :: 0 <= k < |r| ==> c !in r[k]
    decreases |s|
  {
    var i := IndexOf(s, c);
    if i == |s| then
      assert s[..i] == s;
      [s]
    else
      [s[..i]] + Split(s[i + 1..], c)
  }

  lemma IndexOfFirst(a: string, c: char, b: string)
    requires c !in a
    ensures IndexOf(a + [c] + b, c) == |a|
  {
    var s := a + [c] + b;
    assert forall k :: 0 <= k < |a| ==> s[k] == a[k] && s[k] != c;
    assert s[..|a| + 1][|a|] == c;
  }

  /** Splitting a join on its one-character separator gives the parts back,
      when no part contains that character. */
  lemma {:induction false} SplitJoin(lines: seq<string>, c: char)
    requires |lines| > 0
    requires forall k :: 0 <= k < |lines| ==> c !in lines[k]
    ensures Split(Join(lines, [c]), c) == lines
  {
    if |lines| == 1 {
      assert forall k :: 0 <= k < |lines[0]| ==> lines[0][k] != c;
    } else {
      var rest := Join(lines[1..], [c]);
      var s := lines[0] + [c] + rest;
      assert Join(lines, [c]) == s;
      IndexOfFirst(lines[0], c, rest);
      assert s[..|lines[0]|] == lines[0];
      assert s[|lines[0]| + 1..] == rest;
      SplitJoin(lines[1..], c);
      assert lines == [lines[0]] + lines[1..];
    }
  }

  /** Joining the pieces of a split with the separator gives the string back. */
  lemma {:induction false} JoinSplit(s: string, c: char)
    ensures Join(Split(s, c), [c]) == s
    decreases |s|
  {
    var i := IndexOf(s, c);
    if i == |s| {
      assert s[..i] == s;
    } else {
      var tail := Split(s[i + 1..], c);
      JoinSplit(s[i + 1..], c);
      assert ([s[..i]] + tail)[1..] == tail;
      assert Join([s[..i]] + tail, [c]) == s[..i] + [c] + s[i + 1..];
      assert s == s[..i] + [s[i]] + s[i + 1..];
    }
  }

  /** `s` without its final `suffix`, when it ends with it. */
  function StripSuffix(s: string, suffix: string): (r: Option<string>)
    ensures r.Some? <==> |suffix| <= |s| && s[|s| - |suffix|..] == suffix
    ensures r.Some? ==> r.value + suffix == s
  {
    if |suffix| <= |s| && s[|s| - |suffix|..] == suffix then
      assert s == s[..|s| - |suffix|] + s[|s| - |suffix|..];
      Some(s[..|s| - |suffix|])
    else
      None
  }

  /** Upper-case ASCII letters. */
  predicate IsUpper(c: char)
  {
    'A' <= c <= 'Z'
  }

  /** Lower-case ASCII letters. */
  predicate IsLower(c: char)
  {
    'a' <= c <= 'z'
  }

  /** The lower-case form of one character (ASCII letters only). */
  function LowerChar(c: char): (d: char)
  {
    if IsUpper(c) then (c as int + 32) as char else c
  }

  /** The upper-case form of one character (ASCII letters only). */
  function UpperChar(c: char): (d: char)
  {
    if IsLower(c) then (c as int - 32) as char else c
  }

  /** `s.toLowerCase()`. */
  function ToLower(s: string): (r: string)
    ensures |r| == |s|
    ensures forall k :: 0 <= k < |s| ==> r[k] == LowerChar(s[k])
  {
    seq(|s|, k requires 0 <= k < |s| => LowerChar(s[k]))
  }

  /** lodash `upperFirst(s)`: the first character upper-cased, the rest as it was. */
  function UpperFirst(s: string): (r: string)
    ensures |r| == |s|
    ensures |s| > 0 ==> r[0] == UpperChar(s[0]) && r[1..] == s[1..]
  {
    if |s| == 0 then s else [UpperChar(s[0])] + s[1..]
  }
}
