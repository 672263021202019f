/** strings.Split on a one-character separator, and its inverse. */
module Text {

  /** The pieces between separators, never an empty list. */
  function Split(s: string, sep: char): (parts: seq<string>)
    ensures parts != []
  {
    if s == "" then [""]
    else
      var rest := Split(s[1..], sep);
      if s[0] == sep then [""] + rest else [[s[0]] + rest[0]] + rest[1..]
  }

  function Join(parts: seq<string>, sep: char): string {
    if parts == [] then "" else if |parts| == 1 then parts[0] else parts[0] + [sep] + Join(parts[1..], sep)
  }

  /** Splitting keeps every character: joining gives the text back, and no piece holds a separator. */
  lemma {:induction false} SplitJoin(s: string, sep: char)
    ensures Join(Split(s, sep), sep) == s
    ensures forall i :: 0 <= i < |Split(s, sep)| ==> sep !in Split(s, sep)[i]
  {
    if s != "" {
      SplitJoin(s[1..], sep);
      var rest := Split(s[1..], sep);
      var parts := Split(s, sep);
      assert s == [s[0]] + s[1..];
      if s[0] == sep {
        assert parts[1..] == rest;
      } else {
        PrependToFirst(s[0], rest, sep);
      }
    }
  }

  lemma PrependToFirst(c: char, rest: seq<string>, sep: char)
    requires rest != []
    ensures Join([[c] + rest[0]] + rest[1..], sep) == [c] + Join(rest, sep)
  {
    var parts := [[c] + rest[0]] + rest[1..];
    assert parts[1..] == rest[1..];
    if |rest| > 1 {
      assert [c] + (rest[0] + [sep] + Join(rest[1..], sep)) == ([c] + rest[0]) + [sep] + Join(rest[1..], sep);
    }
  }

  /** Joining pieces without separators and splitting again gives the pieces back. */
  lemma {:induction false} JoinSplit(parts: seq<string>, sep: char)
    requires parts != [] && forall i :: 0 <= i < |parts| ==> sep !in parts[i]
    ensures Split(Join(parts, sep), sep) == parts
    decreases |parts|, |parts[0]|
  {
    var s := Join(parts, sep);
    if parts[0] == "" {
      if |parts| > 1 {
        assert s == [sep] + Join(parts[1..], sep);
        assert s[1..] == Join(parts[1..], sep);
        JoinSplit(parts[1..], sep);
        assert parts == [""] + parts[1..];
      } else {
        assert parts == [""];
      }
    } else {
      var c, shorter := parts[0][0], [parts[0][1..]] + parts[1..];
      assert parts[0] == [c] + parts[0][1..];
      assert c in parts[0];
      PrependToFirst(c, shorter, sep);
      assert parts == [[c] + shorter[0]] + shorter[1..];
      assert forall i :: 0 <= i < |shorter| ==> sep !in shorter[i] by {
        assert forall x :: x in parts[0][1..] ==> x in parts[0];
      }
      JoinSplit(shorter, sep);
      assert s[0] == c && s[1..] == Join(shorter, sep);
    }
  }
}
