/**
 When the order of the parameters matters. The loop gives the same in every order exactly when the
 template settles; so does the URL, unless a "{}" hides what the loop did. Of balanced templates
 without "{}" those that do not settle are the ones whose braces nest.
 */
module TemplateOrder {
  import opened Prelude
  import opened Text
  import opened Template

  ghost predicate LoopSame(s: string) {
    forall args, one, two | Named(args) && Order(one, args.Keys) && Order(two, args.Keys) ::
      Loop(s, args, one) == Loop(s, args, two)
  }

  // ----- templates that do not settle -----

  function Zs(k: nat): string {
    if k == 0 then "" else "z" + Zs(k - 1)
  }

  lemma {:induction false} ZsPlain(k: nat)
    ensures |Zs(k)| == k && NoBraces(Zs(k)) && PathEscape(Zs(k)) == Zs(k)
  {
    if k > 0 {
      ZsPlain(k - 1);
      assert Zs(k)[1..] == Zs(k - 1);
    }
  }

  lemma HoleParts(m: string, s: string)
    requires NoBraces(m)
    ensures var whole := "{" + m + "}" + s; HoleAt(whole) && HoleName(whole) == m && Behind(whole) == s
  {
    var whole := "{" + m + "}" + s;
    assert whole[1..] == m + "}" + s;
    assert (m + "}" + s)[..|m| + 1] == m + "}";
    StartCloses(whole[1..], m);
  }

  lemma {:induction false} UptoSkipped(l: string, s: string)
    requires NoBraces(l) && NextCloses(s)
    ensures NextCloses(l + s) && Upto(l + s) == l + Upto(s)
  {
    if l == "" {
      assert l + s == s;
    } else {
      assert (l + s)[0] == l[0] && l[0] in l && (l + s)[1..] == l[1..] + s;
      UptoSkipped(l[1..], s);
      assert Upto(l + s) == [l[0]] + Upto(l[1..] + s);
      hide Upto, NextCloses;
    }
  }

  lemma {:induction false} NamesSkipped(l: string, s: string)
    requires NoBraces(l)
    ensures Names(l + s) == Names(s)
  {
    if l == "" {
      assert l + s == s;
    } else {
      assert (l + s)[0] == l[0] && l[0] in l && (l + s)[1..] == l[1..] + s;
      NamesSkipped(l[1..], s);
    }
  }

  lemma {:induction false} NamesShort(s: string)
    ensures forall n | n in Names(s) :: NoBraces(n) && |n| + 2 <= |s|
    decreases |s|
  {
    if s != "" {
      if HoleAt(s) {
        NamesShort(Behind(s));
      } else {
        NamesShort(s[1..]);
      }
    }
  }

  // Every named hole of s gets the value v.
  predicate FillsAll(s: string, values: map<string, string>, v: string) {
    Names(s) - {""} <= values.Keys && "" !in values && NoBraces(v) && forall k | k in values :: values[k] == v
  }

  // The closing brace that is next once the holes before it are filled ends a name that holds one
  // of the values.
  lemma {:induction false} CloseFilled(s: string, values: map<string, string>, v: string)
    requires FillsAll(s, values, v) && Closes(s)
    ensures NextCloses(Fill(s, values)) && (!NextCloses(s) ==> |Upto(Fill(s, values))| >= |v|)
    decreases |s|
  {
    if s[0] == '{' {
      CloseFilled(Behind(s), values, v);
      UptoSkipped(v, Fill(Behind(s), values));
    } else if s[0] != '}' {
      CloseFilled(s[1..], values, v);
      UptoSkipped([s[0]], Fill(s[1..], values));
    }
  }

  lemma {:induction false} NewHole(s: string, values: map<string, string>, v: string) returns (n: string)
    requires FillsAll(s, values, v) && Sound(values) && !Settled(s)
    ensures n in Names(Fill(s, values)) && |n| >= |v|
    decreases |s|
  {
    if HoleAt(s) {
      n := NewHole(Behind(s), values, v);
      if HoleName(s) == "" {
        HoleParts("", Fill(Behind(s), values));
      } else {
        NamesSkipped(v, Fill(Behind(s), values));
      }
    } else {
      var rest := Fill(s[1..], values);
      assert Fill(s, values)[1..] == rest;
      if s[0] != '{' {
        n := NewHole(s[1..], values, v);
      } else if Closes(s[1..]) {
        CloseFilled(s[1..], values, v);
        n := HoleName(Fill(s, values));
      } else {
        n := NewHole(s[1..], values, v);
        OpenStays(s[1..], values);
      }
    }
  }

  lemma {:induction false} TooLong(s: string, p: string, v: string)
    requires |p| > |s|
    ensures ReplaceAll(s, p, v) == s
    decreases |s|
  {
    if s != "" {
      TooLong(s[1..], p, v);
    }
  }

  lemma {:induction false} ReplacedAppend(s: string, values: map<string, string>, a: seq<string>, b: seq<string>)
    requires forall n | n in a + b :: n in values
    ensures (forall n | n in a :: n in values) && forall n | n in b :: n in values
    ensures Replaced(s, values, a + b) == Replaced(Replaced(s, values, a), values, b)
    decreases |b|
  {
    assert forall n :: n in a + b <==> n in a || n in b;
    if b == [] {
      assert a + b == a;
    } else {
      assert (a + b)[..|a + b| - 1] == a + b[..|b| - 1];
      ReplacedAppend(s, values, a, b[..|b| - 1]);
    }
  }

  lemma {:induction false} Listed(names: set<string>) returns (order: seq<string>)
    ensures Order(order, names) && forall n :: n in order <==> n in names
    decreases |names|
  {
    if n :| n in names {
      var rest := Listed(names - {n});
      order := rest + [n];
      assert forall m :: m in order <==> m in rest || m == n;
    } else {
      order := [];
    }
  }

  // Values for all named holes of s, longer than s.
  function Long(s: string): map<string, string> {
    map n | n in Names(s) - {""} :: Zs(|s| + 1)
  }

  lemma LongValues(s: string)
    ensures Sound(Long(s)) && FillsAll(s, Long(s), Zs(|s| + 1)) && AllLonger(Long(s), |s|)
    ensures Named(Long(s)) && Escaped(Long(s)) == Long(s)
    ensures forall n | n in Long(s) :: |n| <= |s|
  {
    hide PathEscape, Zs, Names;
    ZsPlain(|s| + 1);
    NamesShort(s);
  }

  lemma LongFills(s: string, order: seq<string>)
    requires Order(order, Long(s).Keys)
    ensures Sound(Long(s)) && FillsAll(s, Long(s), Zs(|s| + 1)) && forall n | n in order :: n in Long(s)
    ensures Replaced(s, Long(s), order) == Fill(s, Long(s))
  {
    hide Fill, Names, Zs, PathEscape, Replaced, Settled, FillsAll;
    LongValues(s);
    assert forall n :: n in order <==> n in (set m | m in order);
    assert Chosen(Long(s), order) == Long(s);
    ReplacedIs(s, Long(s), order);
  }

  lemma {:induction false} ReplacedAgrees(s: string, v: map<string, string>, w: map<string, string>, order: seq<string>)
    requires forall n | n in order :: n in v && n in w && v[n] == w[n]
    ensures Replaced(s, v, order) == Replaced(s, w, order)
    decreases |order|
  {
    if order != [] {
      ReplacedAgrees(s, v, w, order[..|order|-1]);
    }
  }

  // Parameters whose names are longer than s, besides those that fill its holes.
  predicate Besides(s: string, args: map<string, string>) {
    Named(args) && forall k | k in args :: |k| > |s|
  }

  lemma DistinctAppend(a: seq<string>, b: seq<string>)
    requires forall i, j | 0 <= i < j < |a| :: a[i] != a[j]
    requires forall i, j | 0 <= i < j < |b| :: b[i] != b[j]
    requires forall n | n in a :: n !in b
    ensures forall i, j | 0 <= i < j < |a + b| :: (a + b)[i] != (a + b)[j]
  {
    forall i, j | 0 <= i < j < |a + b|
      ensures (a + b)[i] != (a + b)[j]
    {
      if i < |a| <= j {
        assert a[i] in a && b[j - |a|] in b;
      }
    }
  }

  lemma BothOrders(a: seq<string>, b: seq<string>, names: set<string>, more: set<string>)
    requires Order(a, names) && Order(b, more) && names !! more
    ensures Order(a + b, names + more) && Order(b + a, names + more)
    ensures (forall n :: n in a <==> n in names) && forall n :: n in b <==> n in more
  {
    assert forall n :: n in a <==> n in (set m | m in a);
    assert forall n :: n in b <==> n in (set m | m in b);
    assert forall n :: n in a + b <==> n in a || n in b;
    assert forall n :: n in b + a <==> n in a || n in b;
    assert (set m | m in a + b) == names + more && (set m | m in b + a) == names + more;
    forall n | n in a
      ensures n !in b
    {
      assert n in names;
    }
    DistinctAppend(a, b);
    DistinctAppend(b, a);
  }

  // First the holes of s are filled, then the rest happens to what that made.
  lemma FirstLong(s: string, more: map<string, string>, first: seq<string>, last: seq<string>)
    requires Besides(s, more) && Order(first, Long(s).Keys) && Order(last, more.Keys)
    ensures var args := Long(s) + more;
      && Named(args) && Order(first + last, args.Keys) && Order(last + first, args.Keys)
      && Loop(s, args, first + last) == Loop(Fill(s, Long(s)), more, last)
  {
    hide Fill, Names, Zs, PathEscape, ReplaceAll, Replaced, Settled, Order;
    NamesShort(s);
    ZsPlain(|s| + 1);
    LongFills(s, first);
    var args := Long(s) + more;
    var values := Escaped(args);
    assert args.Keys == Long(s).Keys + more.Keys;
    BothOrders(first, last, Long(s).Keys, more.Keys);
    ReplacedAppend(s, values, first, last);
    ReplacedAgrees(s, values, Long(s), first);
    ReplacedAgrees(Fill(s, Long(s)), values, Escaped(more), last);
  }

  // Parameters whose names are longer than the template do nothing if they come first.
  lemma {:induction false} LongNothing(s: string, values: map<string, string>, order: seq<string>)
    requires forall n | n in order :: n in values && |n| > |s|
    ensures Replaced(s, values, order) == s
    decreases |order|
  {
    if order != [] {
      LongNothing(s, values, order[..|order|-1]);
      TooLong(s, "{" + order[|order|-1] + "}", values[order[|order|-1]]);
    }
  }

  lemma LongFirst(s: string, more: map<string, string>, first: seq<string>, last: seq<string>)
    requires Besides(s, more) && Order(first, Long(s).Keys) && Order(last, more.Keys)
    ensures var args := Long(s) + more;
      Order(last + first, args.Keys) && Loop(s, args, last + first) == Fill(s, Long(s))
  {
    hide Fill, Names, Zs, PathEscape, ReplaceAll, Replaced, Settled, Order;
    NamesShort(s);
    ZsPlain(|s| + 1);
    LongFills(s, first);
    var args := Long(s) + more;
    var values := Escaped(args);
    assert args.Keys == Long(s).Keys + more.Keys;
    BothOrders(first, last, Long(s).Keys, more.Keys);
    ReplacedAppend(s, values, last, first);
    LongNothing(s, values, last);
    ReplacedAgrees(s, values, Long(s), first);
  }

  // A bare closing brace is no part of a name.
  lemma NamesBehindClose(s: string)
    requires NextCloses(s)
    ensures Names(s[|Upto(s)| + 1..]) == Names(s)
  {
    var u, rest := Upto(s), s[|Upto(s)| + 1..];
    assert s == u + ("}" + rest) && ("}" + rest)[1..] == rest;
    NamesSkipped(u, "}" + rest);
  }

  // Every hole of the filled template t is a new one, but for those called "" already in s.
  predicate NewNames(t: string, s: string, v: string) {
    forall n | n in Names(t) :: if n == "" then "" in Names(s) else |n| >= |v|
  }

  lemma NewBehindHole(s: string, values: map<string, string>, v: string)
    requires v != "" && FillsAll(s, values, v) && Sound(values) && HoleAt(s)
    requires NewNames(Fill(Behind(s), values), Behind(s), v)
    ensures NewNames(Fill(s, values), s, v)
  {
    var rest := Fill(Behind(s), values);
    assert Names(s) == {HoleName(s)} + Names(Behind(s));
    if HoleName(s) == "" {
      HoleParts("", rest);
      assert Names(Fill(s, values)) == {""} + Names(rest);
    } else {
      NamesSkipped(v, rest);
      assert Fill(s, values) == v + rest;
    }
  }

  // A brace that starts no hole of s can only start one whose name holds a value.
  lemma LateName(s: string, values: map<string, string>, v: string)
    requires FillsAll(s, values, v) && Sound(values) && !NextCloses(s) && NextCloses(Fill(s, values))
    ensures |Upto(Fill(s, values))| >= |v|
  {
    var n := Upto(Fill(s, values));
    assert Fill(s, values)[..|n| + 1] == n + "}";
    if |n| < |v| {
      LateClose(s, values, n);
    }
  }

  lemma NamesBehindChar(c: char, s: string)
    ensures Names([c] + s) == if HoleAt([c] + s) then {Upto(s)} + Names(s) else Names(s)
  {
    var whole := [c] + s;
    assert whole[1..] == s;
    if HoleAt(whole) {
      NamesBehindClose(s);
      assert Behind(whole) == s[|Upto(s)| + 1..];
    }
  }

  lemma NewBehindChar(s: string, values: map<string, string>, v: string)
    requires s != "" && !HoleAt(s) && v != "" && FillsAll(s, values, v) && Sound(values)
    requires NewNames(Fill(s[1..], values), s[1..], v)
    ensures NewNames(Fill(s, values), s, v)
  {
    hide Names, Upto, FillsAll, Sound;
    var rest := Fill(s[1..], values);
    assert Fill(s, values) == [s[0]] + rest && [s[0]] + s[1..] == s;
    NamesBehindChar(s[0], rest);
    NamesBehindChar(s[0], s[1..]);
    if HoleAt([s[0]] + rest) {
      FillsTail(s, values, v);
      assert ([s[0]] + rest)[1..] == rest;
      LateName(s[1..], values, v);
    }
  }

  lemma FillsTail(s: string, values: map<string, string>, v: string)
    requires s != "" && !HoleAt(s) && FillsAll(s, values, v)
    ensures FillsAll(s[1..], values, v)
  {
  }

  lemma {:induction false} NewNamesLong(s: string, values: map<string, string>, v: string)
    requires v != "" && FillsAll(s, values, v) && Sound(values)
    ensures NewNames(Fill(s, values), s, v)
    decreases |s|
  {
    if s != "" {
      if HoleAt(s) {
        NewNamesLong(Behind(s), values, v);
        NewBehindHole(s, values, v);
      } else {
        NewNamesLong(s[1..], values, v);
        NewBehindChar(s, values, v);
      }
    }
  }

  lemma {:induction false} FillLonger(s: string, values: map<string, string>, bound: nat)
    requires |s| <= bound && AllLonger(values, bound)
    ensures |Fill(s, values)| >= |s| && (Names(s) !! values.Keys || |Fill(s, values)| > |s|)
    decreases |s|
  {
    if s != "" {
      if HoleAt(s) {
        FillLonger(Behind(s), values, bound);
      } else {
        FillLonger(s[1..], values, bound);
      }
    }
  }

  // The template with all its holes filled, and that once more.
  function Level(s: string): string {
    Fill(s, Long(s))
  }

  // What filling the holes of a template that does not settle leaves to be filled.
  lemma NextLevel(s: string)
    requires !Settled(s)
    ensures Besides(s, Long(Level(s))) && |Level(s)| >= |s| && |Level(Level(s))| > |Level(s)|
    ensures "" in Names(Level(s)) ==> "" in Names(s)
    ensures forall n | n in Names(Level(s)) :: n == "" || |n| > |s|
  {
    hide Fill, Zs, Settled, Names, FillsAll, Sound, PathEscape;
    var s1 := Level(s);
    LongValues(s);
    LongValues(s1);
    ZsPlain(|s| + 1);
    NewNamesLong(s, Long(s), Zs(|s| + 1));
    FillLonger(s, Long(s), |s|);
    var n := NewHole(s, Long(s), Zs(|s| + 1));
    assert n in Long(s1);
    FillLonger(s1, Long(s1), |s1|);
  }

  // Two orders for a template that does not settle: filling its holes and then those that this
  // makes, or trying the latter first, before they are there.
  lemma Disturbed(s: string) returns (one: seq<string>, two: seq<string>)
    requires !Settled(s)
    ensures var args := Long(s) + Long(Level(s));
      && Named(args) && Order(one, args.Keys) && Order(two, args.Keys)
      && Loop(s, args, one) == Level(Level(s)) && Loop(s, args, two) == Level(s)
  {
    hide Fill, Names, Zs, PathEscape, ReplaceAll, Settled, Order, Replaced;
    NextLevel(s);
    var s1 := Level(s);
    var first := Listed(Long(s).Keys);
    var last := Listed(Long(s1).Keys);
    LongFills(s1, last);
    ZsPlain(|s1| + 1);
    FirstLong(s, Long(s1), first, last);
    LongFirst(s, Long(s1), first, last);
    ReplacedAgrees(s1, Escaped(Long(s1)), Long(s1), last);
    one, two := first + last, last + first;
  }

  // A settled template does not see the order.
  lemma SettledOrders(s: string, args: map<string, string>, one: seq<string>, two: seq<string>)
    requires Settled(s) && Named(args) && Order(one, args.Keys) && Order(two, args.Keys)
    ensures Loop(s, args, one) == Loop(s, args, two)
  {
    SettledLoopOf(s, args, one);
    SettledLoopOf(s, args, two);
  }

  // The loop gives the same in every order, for any arguments, exactly when the template settles.
  lemma LoopSameIffSettled(s: string)
    ensures LoopSame(s) <==> Settled(s)
  {
    hide Fill, Settled, Zs, Names, Replaced, Order;
    if Settled(s) {
      forall args, one, two | Named(args) && Order(one, args.Keys) && Order(two, args.Keys)
        ensures Loop(s, args, one) == Loop(s, args, two)
      {
        SettledOrders(s, args, one, two);
      }
    } else {
      var one, two := Disturbed(s);
      NextLevel(s);
      assert Loop(s, Long(s) + Long(Level(s)), one) != Loop(s, Long(s) + Long(Level(s)), two);
    }
  }

  // ----- the URL -----

  ghost predicate UrlSame(s: string) {
    forall args, one, two | Named(args) && Order(one, args.Keys) && Order(two, args.Keys) ::
      Url(s, args, one) == Url(s, args, two)
  }

  lemma {:induction false} RemoveShrinks(s: string)
    ensures |RemovePlaceholders(s)| <= |s|
    decreases |s|
  {
    if s != "" {
      var close := IndexOf(s[1..], '}');
      if s[0] == '{' && close >= 1 {
        RemoveShrinks(s[close + 2..]);
      } else {
        RemoveShrinks(s[1..]);
      }
    }
  }

  // Once all holes of a settled template are filled there is none left ...
  lemma {:induction false} SettledFilled(s: string, values: map<string, string>, v: string)
    requires Settled(s) && "" !in Names(s) && FillsAll(s, values, v) && Sound(values)
    ensures Names(Fill(s, values)) == {}
    decreases |s|
  {
    if s != "" {
      if HoleAt(s) {
        SettledFilled(Behind(s), values, v);
        NamesSkipped(v, Fill(Behind(s), values));
      } else {
        SettledFilled(s[1..], values, v);
        assert Fill(s, values)[1..] == Fill(s[1..], values);
        if s[0] == '{' {
          OpenStays(s[1..], values);
        }
      }
    }
  }

  // ... and nothing to be dropped: an opening brace with a closing one behind it leads to a hole.
  lemma {:induction false} HoleSomewhere(s: string)
    requires '}' in s
    ensures Names("{" + s) != {}
    decreases |s|, 1
  {
    assert ("{" + s)[1..] == s;
    if !NextCloses(s) {
      OpenBefore(s);
    }
  }

  lemma {:induction false} OpenBefore(s: string)
    requires '}' in s && !NextCloses(s)
    ensures Names(s) != {}
    decreases |s|, 0
  {
    assert '}' in s[1..];
    if s[0] == '{' {
      HoleSomewhere(s[1..]);
      assert "{" + s[1..] == s;
    } else {
      OpenBefore(s[1..]);
    }
  }

  lemma {:induction false} NothingDropped(s: string)
    requires Names(s) == {}
    ensures RemovePlaceholders(s) == s
    decreases |s|
  {
    if s != "" {
      assert !HoleAt(s) && [s[0]] + s[1..] == s;
      NothingDropped(s[1..]);
      if s[0] == '{' && '}' in s[1..] {
        HoleSomewhere(s[1..]);
      }
    }
  }

  function Opens(s: string): nat {
    if s == "" then 0 else (if s[0] == '{' then 1 else 0) + Opens(s[1..])
  }

  lemma {:induction false} OpensSkipped(l: string, s: string)
    requires '{' !in l
    ensures Opens(l + s) == Opens(s)
  {
    if l == "" {
      assert l + s == s;
    } else {
      assert (l + s)[0] == l[0] && l[0] in l && (l + s)[1..] == l[1..] + s;
      OpensSkipped(l[1..], s);
    }
  }

  lemma OpensHole(m: string, s: string)
    requires NoBraces(m)
    ensures Opens("{" + m + "}" + s) == 1 + Opens(s)
  {
    assert ("{" + m + "}" + s)[1..] == (m + "}") + s;
    OpensSkipped(m + "}", s);
  }

  // Filling a hole takes an opening brace away.
  lemma {:induction false} FillFewer(s: string, values: map<string, string>)
    requires Sound(values)
    ensures Opens(Fill(s, values)) + (if Names(s) !! values.Keys then 0 else 1) <= Opens(s)
    decreases |s|
  {
    if s != "" {
      if HoleAt(s) {
        var m, rest := HoleName(s), Fill(Behind(s), values);
        FillFewer(Behind(s), values);
        OpensHole(m, Behind(s));
        if m in values {
          OpensSkipped(values[m], rest);
        } else {
          OpensHole(m, rest);
        }
      } else {
        FillFewer(s[1..], values);
      }
    }
  }

  lemma {:induction false} ClosesNamed(s: string) returns (n: string)
    requires Closes(s) && !NextCloses(s)
    ensures n in Names(s) && n != ""
    decreases |s|
  {
    if s[0] == '{' {
      n := HoleName(s);
    } else {
      n := ClosesNamed(s[1..]);
    }
  }

  lemma {:induction false} UnsettledNamed(s: string) returns (n: string)
    requires !Settled(s)
    ensures n in Names(s) && n != ""
    decreases |s|
  {
    if HoleAt(s) {
      n := UnsettledNamed(Behind(s));
    } else if s[0] == '{' && Closes(s[1..]) {
      n := ClosesNamed(s[1..]);
    } else {
      n := UnsettledNamed(s[1..]);
    }
  }

  // Arguments and two orders that give a template two URLs: level by level all holes are filled,
  // until only those of the last level are left to be filled or missed.
  lemma {:induction false} Nested(s: string) returns (args: map<string, string>, one: seq<string>, two: seq<string>)
    requires "" !in Names(s) && !Settled(s)
    ensures Named(args) && Order(one, args.Keys) && Order(two, args.Keys) && Url(s, args, one) != Url(s, args, two)
    ensures forall k | k in args :: k in Names(s) || |k| > |s|
    decreases Opens(s)
  {
    hide Fill, Zs, Settled, Opens, Names, RemovePlaceholders, Loop, Order;
    NextLevel(s);
    var s1 := Level(s);
    if Settled(s1) {
      one, two := Disturbed(s);
      args := Long(s) + Long(s1);
      LastLevel(s1);
    } else {
      FewerOpens(s);
      var more, p, q := Nested(s1);
      var first := Listed(Long(s).Keys);
      FirstLong(s, more, first, p);
      FirstLong(s, more, first, q);
      args, one, two := Long(s) + more, first + p, first + q;
    }
  }

  // Filled to the last the template is longer than what is left of it otherwise.
  lemma LastLevel(s: string)
    requires Settled(s) && "" !in Names(s) && |Level(s)| > |s|
    ensures RemovePlaceholders(Level(s)) != RemovePlaceholders(s)
  {
    hide Fill, Zs, Settled, Names, RemovePlaceholders;
    NamesShort(s);
    ZsPlain(|s| + 1);
    SettledFilled(s, Long(s), Zs(|s| + 1));
    NothingDropped(Level(s));
    RemoveShrinks(s);
  }

  lemma FewerOpens(s: string)
    requires !Settled(s)
    ensures Opens(Level(s)) < Opens(s)
  {
    hide Fill, Zs, Settled, Names, Opens;
    NamesShort(s);
    ZsPlain(|s| + 1);
    var n := UnsettledNamed(s);
    assert n in Long(s);
    FillFewer(s, Long(s));
  }

  predicate NoEmptyHole(s: string) {
    forall i | 0 < i < |s| :: !(s[i - 1] == '{' && s[i] == '}')
  }

  lemma {:induction false} NoEmptyName(s: string)
    requires NoEmptyHole(s)
    ensures "" !in Names(s)
    decreases |s|
  {
    if s != "" {
      if HoleAt(s) {
        assert !(s[1 - 1] == '{' && s[1] == '}');
        NoEmptyTail(s, |HoleName(s)| + 2);
        NoEmptyName(Behind(s));
      } else {
        NoEmptyTail(s, 1);
        NoEmptyName(s[1..]);
      }
    }
  }

  lemma NoEmptyTail(s: string, k: nat)
    requires NoEmptyHole(s) && k <= |s|
    ensures NoEmptyHole(s[k..])
  {
    forall i | 0 < i < |s[k..]|
      ensures !(s[k..][i - 1] == '{' && s[k..][i] == '}')
    {
      assert s[k..][i - 1] == s[k + i - 1] && s[k..][i] == s[k + i];
    }
  }

  // A template that settles gives one URL in all orders, for any arguments; without "{}" no other does.
  lemma UrlSameIffSettled(s: string)
    ensures Settled(s) ==> UrlSame(s)
    ensures UrlSame(s) && NoEmptyHole(s) ==> Settled(s)
  {
    hide Settled, NoEmptyHole, Order, Loop, RemovePlaceholders;
    if Settled(s) {
      forall args, one, two | Named(args) && Order(one, args.Keys) && Order(two, args.Keys)
        ensures Url(s, args, one) == Url(s, args, two)
      {
        SettledOrders(s, args, one, two);
      }
    } else if NoEmptyHole(s) {
      NoEmptyName(s);
      var args, one, two := Nested(s);
    }
  }

  // ----- a "{}" can hide what the loop did -----

  // An open brace swallows the new hole, filled or not, and "{{}" what a filled one would uncover.
  const HIDING := "{{{b}}{{}"

  function HoleMade(u: string): string {
    "{" + ("{" + u + "}" + "{{}")
  }

  function HoleGone(w: string): string {
    "{" + w + "{{}"
  }

  lemma SkipOpen(s: string, n: string, v: string)
    requires n != "" && NoBraces(n) && s != "" && (s[0] == '{' || s == "}")
    ensures ReplaceAll("{" + s, "{" + n + "}", v) == "{" + ReplaceAll(s, "{" + n + "}", v)
  {
    assert n[0] in n;
    SkipBrace(s, n, v);
  }

  lemma TailStays(n: string, v: string)
    requires n != "" && NoBraces(n)
    ensures ReplaceAll("{{}", "{" + n + "}", v) == "{{}"
  {
    hide ReplaceAll, StartsWith;
    assert "{{}" == "{" + "{}" && "{}" == "{" + "}" && "}" + "" == "}";
    SkipOpen("{}", n, v);
    SkipOpen("}", n, v);
    SkipPlain("}", "", "{" + n + "}", v);
    ReplaceNone("{" + n + "}", v);
  }

  lemma HidingStep(n: string, v: string)
    requires n != "" && NoBraces(n)
    ensures ReplaceAll(HIDING, "{" + n + "}", v) == if n == "b" then HoleMade(v) else HIDING
  {
    hide ReplaceAll;
    var p, rest := "{" + n + "}", "}" + "{{}";
    var inner := "{" + "b" + "}" + rest;
    assert HIDING == "{" + ("{" + inner);
    SkipOpen("{" + inner, n, v);
    SkipOpen(inner, n, v);
    TailStays(n, v);
    SkipPlain("}", "{{}", p, v);
    if n == "b" {
      TakeOwn(n, rest, v);
      assert "{" + ("{" + (v + rest)) == HoleMade(v);
    } else {
      SkipOther("b", rest, n, v);
    }
  }

  lemma MadeStep(u: string, n: string, v: string)
    requires n != "" && NoBraces(n) && NoBraces(u)
    ensures ReplaceAll(HoleMade(u), "{" + n + "}", v) == if n == u then HoleGone(v) else HoleMade(u)
  {
    hide ReplaceAll;
    SkipOpen("{" + u + "}" + "{{}", n, v);
    TailStays(n, v);
    if n == u {
      TakeOwn(n, "{{}", v);
      assert "{" + (v + "{{}") == HoleGone(v);
    } else {
      SkipOther(u, "{{}", n, v);
    }
  }

  lemma GoneStep(w: string, n: string, v: string)
    requires n != "" && NoBraces(n) && NoBraces(w)
    ensures ReplaceAll(HoleGone(w), "{" + n + "}", v) == HoleGone(w)
  {
    hide ReplaceAll;
    assert HoleGone(w) == "{" + (w + "{{}");
    TextSkipped(w, "{{}");
    if StartsWith(w + "{{}", n + "}") {
      StartCloses(w + "{{}", n);
    }
    SkipBrace(w + "{{}", n, v);
    SkipPlain(w, "{{}", "{" + n + "}", v);
    TailStays(n, v);
  }

  // Whether "b" has been replaced is all that can be told from what the clean-up leaves.
  ghost predicate Hides(t: string, replaced: bool) {
    if replaced then exists u :: NoBraces(u) && (t == HoleMade(u) || t == HoleGone(u)) else t == HIDING
  }

  lemma {:induction false} HidingLoop(values: map<string, string>, order: seq<string>)
    requires Sound(values) && forall n | n in order :: n in values
    ensures Hides(Replaced(HIDING, values, order), "b" in order)
    decreases |order|
  {
    if order != [] {
      var init, n := order[..|order|-1], order[|order|-1];
      var t, v := Replaced(HIDING, values, init), values[n];
      assert order == init + [n];
      HidingLoop(values, init);
      hide HoleMade, HoleGone;
      if "b" in init {
        var u :| NoBraces(u) && (t == HoleMade(u) || t == HoleGone(u));
        MadeStep(u, n, v);
        GoneStep(u, n, v);
      } else {
        HidingStep(n, v);
      }
    }
  }

  lemma HidesAll(u: string)
    requires NoBraces(u)
    ensures RemovePlaceholders(HoleMade(u)) == "" == RemovePlaceholders(HoleGone(u))
  {
    hide RemovePlaceholders;
    DropHole("{" + u, "{{}");
    assert "{" + ("{" + u) + "}" + "{{}" == HoleMade(u);
    DropHole("{", "");
    assert "{" + "{" + "}" + "" == "{{}";
    DropHole(u + "{{", "");
    assert "{" + (u + "{{") + "}" + "" == HoleGone(u);
    RemoveNothing();
  }

  // This template does not settle, and yet has one URL.
  lemma Hidden()
    ensures !Settled(HIDING) && UrlSame(HIDING)
  {
    hide RemovePlaceholders, HoleMade, HoleGone, Replaced, PathEscape;
    HidingUnsettled();
    forall args, one, two | Named(args) && Order(one, args.Keys) && Order(two, args.Keys)
      ensures Url(HIDING, args, one) == Url(HIDING, args, two)
    {
      EscapedSound(args);
      assert forall n :: n in one <==> n in (set m | m in one);
      assert forall n :: n in two <==> n in (set m | m in two);
      HidingLoop(Escaped(args), one);
      HidingLoop(Escaped(args), two);
      forall u | NoBraces(u) {
        HidesAll(u);
      }
    }
  }

  lemma HidingUnsettled()
    ensures !Settled(HIDING)
  {
    var inner := "{b}}{{}";
    HoleParts("b", "}{{}");
    assert "{" + "b" + "}" + "}{{}" == inner;
    assert Closes("}{{}") && Closes(inner);
    assert HIDING[1..] == "{{b}}{{}" && "{{b}}{{}"[1..] == inner;
    assert !Settled("{{b}}{{}");
  }

  // ----- nested braces -----

  // Every brace has its partner; `depth` are open already.
  predicate Balanced(s: string, depth: int) {
    if s == "" then depth == 0
    else if s[0] == '{' then Balanced(s[1..], depth + 1)
    else if s[0] == '}' then depth > 0 && Balanced(s[1..], depth - 1)
    else Balanced(s[1..], depth)
  }

  // Behind an open brace of a balanced settled template some closing brace is bare once the holes
  // are filled.
  lemma {:induction false} BalancedCloses(s: string, depth: int)
    requires Balanced(s, depth) && depth > 0 && Settled(s) && "" !in Names(s)
    ensures Closes(s)
    decreases |s|
  {
    if s[0] == '{' {
      if HoleAt(s) {
        BalancedBehind(s, depth);
        BalancedCloses(Behind(s), depth);
      } else {
        BalancedCloses(s[1..], depth + 1);
      }
    } else if s[0] != '}' {
      BalancedCloses(s[1..], depth);
    }
  }

  lemma {:induction false} BalancedSkipped(l: string, s: string, depth: int)
    requires NoBraces(l)
    ensures Balanced(l + s, depth) == Balanced(s, depth)
  {
    if l == "" {
      assert l + s == s;
    } else {
      assert (l + s)[0] == l[0] && l[0] in l && (l + s)[1..] == l[1..] + s;
      BalancedSkipped(l[1..], s, depth);
    }
  }

  lemma BalancedHole(m: string, s: string, depth: int)
    requires NoBraces(m) && depth >= 0
    ensures Balanced("{" + m + "}" + s, depth) == Balanced(s, depth)
  {
    assert ("{" + m + "}" + s)[1..] == m + ("}" + s);
    BalancedSkipped(m, "}" + s, depth + 1);
    assert ("}" + s)[1..] == s;
  }

  lemma BalancedBehind(s: string, depth: int)
    requires HoleAt(s) && depth >= 0
    ensures Balanced(s, depth) == Balanced(Behind(s), depth)
  {
    BalancedHole(HoleName(s), Behind(s), depth);
  }

  // Of balanced templates without "{}" only the plain ones settle.
  lemma {:induction false} SettledPlain(s: string)
    requires Balanced(s, 0) && Settled(s) && "" !in Names(s)
    ensures Plain(s, false)
    decreases |s|
  {
    if s != "" {
      if HoleAt(s) {
        BalancedBehind(s, 0);
        SettledPlain(Behind(s));
        PlainBefore(HoleName(s), Behind(s));
      } else {
        if s[0] == '{' {
          BalancedCloses(s[1..], 1);
        }
        SettledPlain(s[1..]);
      }
    }
  }

  lemma {:induction false} PlainName(m: string, s: string)
    requires NoBraces(m) && Plain(s, false)
    ensures Plain(m + "}" + s, true)
  {
    var whole := m + "}" + s;
    if m == "" {
      assert whole == "}" + s && whole[1..] == s;
    } else {
      assert whole[0] == m[0] && m[0] in m && whole[1..] == m[1..] + "}" + s;
      PlainName(m[1..], s);
    }
  }

  lemma PlainBefore(m: string, s: string)
    requires NoBraces(m) && Plain(s, false)
    ensures Plain("{" + m + "}" + s, false)
  {
    assert ("{" + m + "}" + s)[1..] == m + "}" + s;
    PlainName(m, s);
  }

  // For balanced templates that is when no brace opens inside an open one.
  lemma UrlSameIffPlain(s: string)
    requires Balanced(s, 0) && NoEmptyHole(s)
    ensures UrlSame(s) <==> Plain(s, false)
  {
    hide UrlSame, Settled, Plain, Balanced;
    UrlSameIffSettled(s);
    if Settled(s) {
      NoEmptyName(s);
      SettledPlain(s);
    } else if Plain(s, false) {
      PlainSettled(s);
    }
  }
}
