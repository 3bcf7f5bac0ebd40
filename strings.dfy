/** Go's `strings.Split` for a one-character separator, and its inverse `Join`. */
module Strings {

  /** The parts separated by `sep`: the inverse of `Split` (Go's `strings.Join`). */
  function Join(parts: seq<string>, sep: char): string
    decreases |parts|
  {
    if |parts| == 0 then ""
    else if |parts| == 1 then parts[0]
    else parts[0] + [sep] + Join(parts[1..], sep)
  }

  /** Go's `strings.Split(s, string(sep))`: the maximal `sep`-free pieces of `s`, in order.
      The empty string splits into one empty piece. */
  function Split(s: string, sep: char): (parts: seq<string>)
    ensures |parts| >= 1
    ensures forall i :: 0 <= i < |parts| ==> sep !in parts[i]
    decreases |s|
  {
    if |s| == 0 then [""]
    else
      var rest := Split(s[1..], sep);
      if s[0] == sep then [""] + rest
      else [[s[0]] + rest[0]] + rest[1..]
  }

  /** `Split` yields one more piece than `s` holds separators. */
  lemma {:induction false} SplitCount(s: string, sep: char)
    ensures |Split(s, sep)| == multiset(s)[sep] + 1
    decreases |s|
  {
    if |s| > 0 {
      SplitCount(s[1..], sep);
      assert s == [s[0]] + s[1..];
      assert multiset(s) == multiset([s[0]]) + multiset(s[1..]);
    }
  }

  /** Prepending a character to the first part prepends it to the joined string. */
  lemma JoinPrependChar(c: char, parts: seq<string>, sep: char)
    requires |parts| >= 1
    ensures Join([[c] + parts[0]] + parts[1..], sep) == [c] + Join(parts, sep)
  {
  }

  /** Joining the pieces of `s` gives back `s`. */
  lemma {:induction false} SplitJoin(s: string, sep: char)
    ensures Join(Split(s, sep), sep) == s
    decreases |s|
  {
    if |s| > 0 {
      var rest := Split(s[1..], sep);
      SplitJoin(s[1..], sep);
      if s[0] == sep {
        assert ([""] + rest)[1..] == rest;
      } else {
        JoinPrependChar(s[0], rest, sep);
      }
    }
  }

  /** Splitting a join of `sep`-free parts gives back the parts: `Split` is the only way to cut
      a string into `sep`-free pieces. */
  lemma {:induction false} JoinSplit(parts: seq<string>, sep: char)
    requires |parts| >= 1
    requires forall i :: 0 <= i < |parts| ==> sep !in parts[i]
    ensures Split(Join(parts, sep), sep) == parts
    decreases |Join(parts, sep)|
  {
    var s := Join(parts, sep);
    if parts[0] == "" {
      if |parts| > 1 {
        assert s == [sep] + Join(parts[1..], sep);
        assert s[1..] == Join(parts[1..], sep);
        JoinSplit(parts[1..], sep);
        assert [""] + parts[1..] == parts;
      }
    } else {
      var c := parts[0][0];
      var w := parts[0][1..];
      var ps := [w] + parts[1..];
      assert parts[0] == [c] + w;
      assert ps[0] == w && ps[1..] == parts[1..];
      JoinPrependChar(c, ps, sep);
      assert [[c] + ps[0]] + ps[1..] == parts;
      assert s == [c] + Join(ps, sep);
      assert s[1..] == Join(ps, sep);
      assert c != sep by { assert parts[0][0] == c; }
      forall i | 0 <= i < |ps| ensures sep !in ps[i] {
        if i == 0 {
          assert forall k :: 0 <= k < |w| ==> w[k] == parts[0][k + 1];
        } else {
          assert ps[i] == parts[i];
        }
      }
      JoinSplit(ps, sep);
    }
  }
}
