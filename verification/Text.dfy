/** Splitting and joining at a separator, as strings.Split and strings.Join do. */
module Text {
  // The pieces between the separators: always at least one, possibly empty.
  function Split<T(==)>(s: seq<T>, sep: T): (parts: seq<seq<T>>)
    ensures parts != []
    decreases |s|
  {
    if s == [] then [[]]
    else
      var rest := Split(s[1..], sep);
      if s[0] == sep then [[]] + rest else [[s[0]] + rest[0]] + rest[1..]
  }

  function Join<T>(parts: seq<seq<T>>, sep: T): seq<T>
    decreases |parts|
  {
    if parts == [] then [] else if |parts| == 1 then parts[0] else parts[0] + [sep] + Join(parts[1..], sep)
  }

  lemma {:induction false} SplitHasNoSeparator<T>(s: seq<T>, sep: T)
    ensures forall p | p in Split(s, sep) :: sep !in p
    decreases |s|
  {
    if s != [] {
      SplitHasNoSeparator(s[1..], sep);
      var rest := Split(s[1..], sep);
      assert forall p | p in rest :: sep !in p;
      assert rest[0] in rest && forall p | p in rest[1..] :: p in rest;
    }
  }

  // A piece without separators in front of the rest.
  lemma {:induction false} SplitFirst<T>(p: seq<T>, s: seq<T>, sep: T)
    requires sep !in p
    ensures Split(p + [sep] + s, sep) == [p] + Split(s, sep)
    ensures Split(p, sep) == [p]
    decreases |p|
  {
    if p == [] {
      assert p + [sep] + s == [sep] + s && ([sep] + s)[1..] == s;
    } else {
      SplitFirst(p[1..], s, sep);
      assert (p + [sep] + s)[1..] == p[1..] + [sep] + s;
      assert [p[0]] + p[1..] == p;
    }
  }

  lemma {:induction false} SplitJoin<T>(parts: seq<seq<T>>, sep: T)
    requires parts != [] && forall p | p in parts :: sep !in p
    ensures Split(Join(parts, sep), sep) == parts
    decreases |parts|
  {
    assert parts[0] in parts;
    if |parts| == 1 {
      SplitFirst(parts[0], [], sep);
    } else {
      SplitFirst(parts[0], Join(parts[1..], sep), sep);
      assert forall p | p in parts[1..] :: p in parts;
      SplitJoin(parts[1..], sep);
    }
  }

  lemma {:induction false} JoinSplit<T>(s: seq<T>, sep: T)
    ensures Join(Split(s, sep), sep) == s
    decreases |s|
  {
    if s != [] {
      var rest, parts := Split(s[1..], sep), Split(s, sep);
      JoinSplit(s[1..], sep);
      assert s == [s[0]] + s[1..];
      if s[0] == sep {
        assert parts[1..] == rest;
      } else {
        assert parts[0] == [s[0]] + rest[0] && parts[1..] == rest[1..];
      }
    }
  }

  function IndexOf(s: string, c: char): (i: int)
    ensures -1 <= i < |s|
    ensures i >= 0 ==> s[i] == c && c !in s[..i]
    ensures i == -1 ==> c !in s
  {
    if s == "" then -1
    else if s[0] == c then 0
    else
      var i := IndexOf(s[1..], c);
      if i == -1 then -1 else assert s[..i + 1] == [s[0]] + s[1..][..i]; i + 1
  }

  lemma {:induction false} Indexed(s: string, c: char, i: int)
    requires 0 <= i < |s| && s[i] == c && c !in s[..i]
    ensures IndexOf(s, c) == i
  {
    if i > 0 {
      assert s[..i][0] == s[0] && s[1..][..i - 1] == s[..i][1..];
      Indexed(s[1..], c, i - 1);
    }
  }
}
