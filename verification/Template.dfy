/**
 The URL of tool/api_tool.go: placeholders are replaced one parameter after the other in the
 order in which a Go map happens to be ranged over, left-over placeholders and empty query
 parameters are dropped. The order does not matter exactly when filling in the holes of the
 template makes no new one.
 */
module Template {
  import opened Prelude
  import opened Text

  // ----- the string operations of the source -----

  predicate StartsWith(s: string, p: string) {
    |p| <= |s| && s[..|p|] == p
  }

  // strings.ReplaceAll with a non-empty pattern: left to right, matches do not overlap.
  function ReplaceAll(s: string, p: string, v: string): string
    requires p != ""
    decreases |s|
  {
    if s == "" then ""
    else if StartsWith(s, p) then v + ReplaceAll(s[|p|..], p, v)
    else [s[0]] + ReplaceAll(s[1..], p, v)
  }

  // rePlaceholder: an opening brace and everything up to the next closing one, if that is at
  // least one character; what lies between may be an opening brace.
  function RemovePlaceholders(s: string): string
    decreases |s|
  {
    if s == "" then ""
    else
      var close := IndexOf(s[1..], '}');
      if s[0] == '{' && close >= 1 then RemovePlaceholders(s[close + 2..])
      else [s[0]] + RemovePlaceholders(s[1..])
  }

  // url.PathEscape, on bytes (section 2.1 of RFC 3986).

  predicate Kept(c: char) {
    'a' <= c <= 'z' || 'A' <= c <= 'Z' || '0' <= c <= '9' || c in "-_.~$&+=:@"
  }

  function UpperHexDigit(v: int): char
    requires 0 <= v < 16
  {
    "0123456789ABCDEF"[v]
  }

  function PathEscape(s: string): string {
    if s == "" then ""
    else (if Kept(s[0]) then [s[0]]
        else ['%', UpperHexDigit(s[0] as int / 16 % 16), UpperHexDigit(s[0] as int % 16)]) + PathEscape(s[1..])
  }

  function Escaped(args: map<string, string>): map<string, string> {
    map k | k in args :: PathEscape(args[k])
  }

  predicate NoBraces(s: string) {
    '{' !in s && '}' !in s
  }

  lemma {:induction false} EscapedHasNoBraces(s: string)
    ensures NoBraces(PathEscape(s))
  {
    if s != "" {
      EscapedHasNoBraces(s[1..]);
    }
  }

  // ----- reading an escaped value back (section 2.1 of RFC 3986) -----

  function HexValue(c: char): int {
    if '0' <= c <= '9' then c as int - 48 else if 'A' <= c <= 'F' then c as int - 55 else -1
  }

  // Percent-decoding, where it succeeds.
  function PathUnescape(s: string): Option<seq<int>>
    decreases |s|
  {
    if s == "" then Some([])
    else if s[0] != '%' then
      var rest := PathUnescape(s[1..]);
      if rest.None? then None else Some([s[0] as int] + rest.value)
    else if |s| < 3 || HexValue(s[1]) < 0 || HexValue(s[2]) < 0 then None
    else
      var rest := PathUnescape(s[3..]);
      if rest.None? then None else Some([16 * HexValue(s[1]) + HexValue(s[2])] + rest.value)
  }

  // The bytes of a text whose characters stand for bytes.
  function Codes(s: string): seq<int> {
    seq(|s|, i requires 0 <= i < |s| => s[i] as int)
  }

  lemma ReadKept(c: char, rest: string)
    requires Kept(c) && PathUnescape(rest).Some?
    ensures PathUnescape([c] + rest) == Some([c as int] + PathUnescape(rest).value)
  {
    assert ([c] + rest)[1..] == rest;
  }

  lemma ReadEscape(v: int, rest: string)
    requires 0 <= v < 256 && PathUnescape(rest).Some?
    ensures PathUnescape(['%', UpperHexDigit(v / 16 % 16), UpperHexDigit(v % 16)] + rest)
         == Some([v] + PathUnescape(rest).value)
  {
    var hi, lo := v / 16 % 16, v % 16;
    assert HexValue(UpperHexDigit(hi)) == hi && HexValue(UpperHexDigit(lo)) == lo;
    assert (['%', UpperHexDigit(hi), UpperHexDigit(lo)] + rest)[3..] == rest;
  }

  // An escaped value reads back as what was escaped.
  lemma {:induction false} EscapeReadsBack(s: string)
    requires forall c | c in s :: c as int < 256
    ensures PathUnescape(PathEscape(s)) == Some(Codes(s))
  {
    hide PathUnescape, Kept, UpperHexDigit;
    if s == "" {
      ReadNothing();
    } else {
      var c, rest := s[0], PathEscape(s[1..]);
      assert c in s && forall d | d in s[1..] :: d in s;
      EscapeReadsBack(s[1..]);
      assert Codes(s) == [c as int] + Codes(s[1..]);
      if Kept(c) {
        ReadKept(c, rest);
      } else {
        ReadEscape(c as int, rest);
      }
    }
  }

  lemma ReadNothing()
    ensures PathUnescape("") == Some([]) && Codes("") == []
  {
  }

  // ... and is one segment of a path: nothing in it ends the path, the query or the URL.
  lemma {:induction false} EscapedIsSegment(s: string)
    ensures forall c | c in PathEscape(s) ::
      'a' <= c <= 'z' || 'A' <= c <= 'Z' || '0' <= c <= '9' || c in "-_.~$&+=:@%"
  {
    if s != "" {
      EscapedIsSegment(s[1..]);
    }
  }

  // ----- the holes of a template -----

  // The first brace of s, if any, is a closing one.
  predicate NextCloses(s: string) {
    s != "" && (s[0] == '}' || (s[0] != '{' && NextCloses(s[1..])))
  }

  function Upto(s: string): (name: string)
    requires NextCloses(s)
    ensures NoBraces(name) && |name| < |s| && s == name + "}" + s[|name| + 1..]
  {
    if s[0] == '}' then "" else [s[0]] + Upto(s[1..])
  }

  // A hole is an opening brace, a text without braces and a closing brace.
  predicate HoleAt(s: string) {
    s != "" && s[0] == '{' && NextCloses(s[1..])
  }

  function HoleName(s: string): (name: string)
    requires HoleAt(s)
    ensures NoBraces(name) && |name| + 2 <= |s| && s == "{" + name + "}" + s[|name| + 2..]
  {
    assert s == "{" + s[1..];
    Upto(s[1..])
  }

  function Behind(s: string): string
    requires HoleAt(s)
  {
    s[|HoleName(s)| + 2..]
  }

  function Names(s: string): set<string>
    decreases |s|
  {
    if s == "" then {}
    else if HoleAt(s) then {HoleName(s)} + Names(Behind(s))
    else Names(s[1..])
  }

  // Every hole that has a value gets it, all at once.
  function Fill(s: string, values: map<string, string>): string
    decreases |s|
  {
    if s == "" then ""
    else if HoleAt(s) then
      var name := HoleName(s);
      (if name in values then values[name] else "{" + name + "}") + Fill(Behind(s), values)
    else [s[0]] + Fill(s[1..], values)
  }

  // Behind an opening brace: once every named hole is filled, the next brace is a closing one.
  predicate Closes(s: string)
    decreases |s|
  {
    if s == "" then false
    else if s[0] == '{' then HoleAt(s) && HoleName(s) != "" && Closes(Behind(s))
    else s[0] == '}' || Closes(s[1..])
  }

  // Filling the holes makes no new hole.
  predicate Settled(s: string)
    decreases |s|
  {
    if s == "" then true
    else if HoleAt(s) then Settled(Behind(s))
    else (s[0] == '{' ==> !Closes(s[1..])) && Settled(s[1..])
  }

  // Parameter names are not empty and hold no braces ...
  predicate Named(args: map<string, string>) {
    forall k | k in args :: k != "" && NoBraces(k)
  }

  // ... and escaped values hold none either.
  predicate Sound(values: map<string, string>) {
    Named(values) && forall k | k in values :: NoBraces(values[k])
  }

  lemma EscapedSound(args: map<string, string>)
    requires Named(args)
    ensures Sound(Escaped(args))
  {
    forall k | k in args
      ensures NoBraces(PathEscape(args[k]))
    {
      EscapedHasNoBraces(args[k]);
    }
  }

  lemma {:induction false} TextSkipped(l: string, s: string)
    requires NoBraces(l)
    ensures NextCloses(l + s) == NextCloses(s)
  {
    if l == "" {
      assert l + s == s;
    } else {
      assert (l + s)[0] == l[0] && l[0] in l && (l + s)[1..] == l[1..] + s;
      TextSkipped(l[1..], s);
    }
  }

  lemma StartCloses(s: string, n: string)
    requires NoBraces(n) && StartsWith(s, n + "}")
    ensures NextCloses(s) && Upto(s) == n
  {
    var rest := s[|n| + 1..];
    assert s == (n + "}") + rest == n + ("}" + rest);
    TextSkipped(n, "}" + rest);
    assert s[|n|] == '}' && s[..|n|] == n;
    Indexed(s, '}', |n|);
    assert s[|Upto(s)|] == '}' && s[..|Upto(s)|] == Upto(s);
    Indexed(s, '}', |Upto(s)|);
  }

  lemma {:induction false} FillNothing(s: string)
    ensures Fill(s, map[]) == s
    decreases |s|
  {
    if s != "" {
      if HoleAt(s) {
        FillNothing(Behind(s));
      } else {
        FillNothing(s[1..]);
      }
    }
  }

  // ----- one replacement -----

  lemma SkipOne(s: string, p: string, v: string)
    requires s != "" && p != "" && s[0] != p[0]
    ensures ReplaceAll(s, p, v) == [s[0]] + ReplaceAll(s[1..], p, v)
  {
    assert |p| <= |s| ==> s[..|p|][0] == s[0];
  }

  lemma {:induction false} SkipPlain(l: string, s: string, p: string, v: string)
    requires p != "" && p[0] == '{' && '{' !in l
    ensures ReplaceAll(l + s, p, v) == l + ReplaceAll(s, p, v)
  {
    hide ReplaceAll;
    if l == "" {
      assert l + s == s;
    } else {
      assert (l + s)[0] == l[0] && l[0] in l;
      SkipOne(l + s, p, v);
      assert (l + s)[1..] == l[1..] + s;
      SkipPlain(l[1..], s, p, v);
      assert [l[0]] + l[1..] == l;
    }
  }

  // A text that starts with two placeholders starts with one.
  lemma SameHole(m: string, s: string, n: string)
    requires NoBraces(m) && NoBraces(n)
    ensures StartsWith("{" + m + "}" + s, "{" + n + "}") ==> m == n
  {
    var whole, p := "{" + m + "}" + s, "{" + n + "}";
    if StartsWith(whole, p) {
      assert whole[..|m| + 1] == "{" + m && whole[|m| + 1] == '}';
      Indexed(whole, '}', |m| + 1);
      assert whole[..|n| + 1] == p[..|n| + 1] == "{" + n && whole[|n| + 1] == p[|n| + 1] == '}';
      Indexed(whole, '}', |n| + 1);
      assert m == whole[..|m| + 1][1..] && n == whole[..|n| + 1][1..];
    }
  }

  lemma SkipOther(m: string, s: string, n: string, v: string)
    requires NoBraces(m) && NoBraces(n) && m != n
    ensures ReplaceAll("{" + m + "}" + s, "{" + n + "}", v) == "{" + m + "}" + ReplaceAll(s, "{" + n + "}", v)
  {
    var whole, p := "{" + m + "}" + s, "{" + n + "}";
    SameHole(m, s, n);
    assert whole[1..] == (m + "}") + s;
    SkipPlain(m + "}", s, p, v);
    assert "{" + ((m + "}") + ReplaceAll(s, p, v)) == "{" + m + "}" + ReplaceAll(s, p, v);
  }

  lemma TakeOwn(n: string, s: string, v: string)
    ensures ReplaceAll("{" + n + "}" + s, "{" + n + "}", v) == v + ReplaceAll(s, "{" + n + "}", v)
  {
    var whole, p := "{" + n + "}" + s, "{" + n + "}";
    assert whole[..|p|] == p && whole[|p|..] == s;
  }

  // No opening brace that starts no hole becomes the start of a hole called n.
  predicate Apart(s: string, values: map<string, string>, n: string)
    decreases |s|
  {
    if s == "" then true
    else if HoleAt(s) then Apart(Behind(s), values, n)
    else (s[0] == '{' ==> !StartsWith(Fill(s[1..], values), n + "}")) && Apart(s[1..], values, n)
  }

  lemma SkipBrace(s: string, n: string, v: string)
    requires !StartsWith(s, n + "}")
    ensures ReplaceAll("{" + s, "{" + n + "}", v) == "{" + ReplaceAll(s, "{" + n + "}", v)
  {
    var whole, p := "{" + s, "{" + n + "}";
    assert whole[1..] == s && p[1..] == n + "}";
    assert |p| <= |whole| ==> whole[..|p|][1..] == s[..|n| + 1];
  }

  // Replacing one more parameter in a partly filled template fills just its holes.
  lemma {:induction false} ReplaceOne(s: string, values: map<string, string>, n: string, v: string)
    requires Sound(values) && NoBraces(n) && n !in values && Apart(s, values, n)
    ensures ReplaceAll(Fill(s, values), "{" + n + "}", v) == Fill(s, values[n := v])
    decreases |s|
  {
    hide ReplaceAll, StartsWith;
    var p := "{" + n + "}";
    if s == "" {
      ReplaceNone(p, v);
    } else if HoleAt(s) {
      var m, rest := HoleName(s), Fill(Behind(s), values);
      ReplaceOne(Behind(s), values, n, v);
      if m in values {
        SkipPlain(values[m], rest, p, v);
      } else if m == n {
        TakeOwn(n, rest, v);
      } else {
        SkipOther(m, rest, n, v);
      }
    } else {
      var rest := Fill(s[1..], values);
      ReplaceOne(s[1..], values, n, v);
      if s[0] == '{' {
        SkipBrace(rest, n, v);
      } else {
        SkipPlain([s[0]], rest, p, v);
      }
    }
  }

  lemma ReplaceNone(p: string, v: string)
    requires p != ""
    ensures ReplaceAll("", p, v) == ""
  {
  }

  // Of settled templates nothing comes apart ...
  lemma {:induction false} OpenStays(s: string, values: map<string, string>)
    requires Sound(values) && !Closes(s)
    ensures !NextCloses(Fill(s, values))
    decreases |s|
  {
    if s != "" {
      if HoleAt(s) {
        var m := HoleName(s);
        if m in values {
          OpenStays(Behind(s), values);
          TextSkipped(values[m], Fill(Behind(s), values));
        }
      } else if s[0] != '{' {
        OpenStays(s[1..], values);
      }
    }
  }

  lemma {:induction false} SettledApart(s: string, values: map<string, string>, n: string)
    requires Sound(values) && NoBraces(n) && Settled(s)
    ensures Apart(s, values, n)
    decreases |s|
  {
    if s != "" {
      if HoleAt(s) {
        SettledApart(Behind(s), values, n);
      } else {
        SettledApart(s[1..], values, n);
        if s[0] == '{' {
          OpenStays(s[1..], values);
          if StartsWith(Fill(s[1..], values), n + "}") {
            StartCloses(Fill(s[1..], values), n);
          }
        }
      }
    }
  }

  predicate AllLonger(values: map<string, string>, length: int) {
    forall k | k in values :: |values[k]| > length
  }

  // ... and of no template if the values are longer than the name.
  lemma {:induction false} LateClose(s: string, values: map<string, string>, n: string)
    requires Sound(values) && NoBraces(n) && !NextCloses(s) && AllLonger(values, |n|)
    ensures !StartsWith(Fill(s, values), n + "}")
    decreases |s|
  {
    var f := Fill(s, values);
    if s != "" {
      if HoleAt(s) && HoleName(s) in values {
        assert f[|n|] == values[HoleName(s)][|n|];
        assert values[HoleName(s)][|n|] in values[HoleName(s)];
        assert (n + "}")[|n|] == '}';
      } else if s[0] == '{' {
        assert f[0] == '{';
        assert n != "" ==> n[0] in n && (n + "}")[0] == n[0];
      } else if n != "" {
        LateClose(s[1..], values, n[1..]);
        assert f[1..] == Fill(s[1..], values) && (n + "}")[1..] == n[1..] + "}";
        assert |n| < |f| ==> f[..|n| + 1][1..] == f[1..][..|n|];
      } else {
        assert f[0] == s[0] && (n + "}")[0] == '}';
      }
    }
  }

  lemma {:induction false} LongApart(s: string, values: map<string, string>, n: string)
    requires Sound(values) && NoBraces(n) && AllLonger(values, |n|)
    ensures Apart(s, values, n)
    decreases |s|
  {
    if s != "" {
      if HoleAt(s) {
        LongApart(Behind(s), values, n);
      } else {
        LongApart(s[1..], values, n);
        if s[0] == '{' {
          LateClose(s[1..], values, n);
        }
      }
    }
  }

  // ----- any order -----

  // The replacement loop, over the parameters in a given order.
  function Replaced(s: string, values: map<string, string>, order: seq<string>): string
    requires forall n | n in order :: n in values
  {
    if order == [] then s
    else ReplaceAll(Replaced(s, values, order[..|order|-1]), "{" + order[|order|-1] + "}", values[order[|order|-1]])
  }

  predicate Order(order: seq<string>, names: set<string>) {
    (set n | n in order) == names && forall i, j | 0 <= i < j < |order| :: order[i] != order[j]
  }

  function Chosen(values: map<string, string>, order: seq<string>): map<string, string>
    requires forall n | n in order :: n in values
  {
    map n | n in order :: values[n]
  }

  // Replacing in this order makes no hole that is replaced later.
  predicate Calm(s: string, values: map<string, string>, order: seq<string>)
    requires forall n | n in order :: n in values
  {
    Settled(s) || forall n | n in order :: AllLonger(Chosen(values, order), |n|)
  }

  lemma {:induction false} ReplacedIs(s: string, values: map<string, string>, order: seq<string>)
    requires (forall n | n in order :: n in values) && Sound(Chosen(values, order))
    requires forall i, j | 0 <= i < j < |order| :: order[i] != order[j]
    requires Calm(s, values, order)
    ensures Replaced(s, values, order) == Fill(s, Chosen(values, order))
    decreases |order|
  {
    hide Fill, Settled, ReplaceAll, NoBraces, Apart;
    if order == [] {
      FillNothing(s);
      assert Chosen(values, order) == map[];
    } else {
      var init, last := order[..|order|-1], order[|order|-1];
      assert order == init + [last];
      assert Chosen(values, order) == Chosen(values, init)[last := values[last]];
      ReplacedIs(s, values, init);
      if Settled(s) {
        SettledApart(s, Chosen(values, init), last);
      } else {
        assert last in order;
        LongApart(s, Chosen(values, init), last);
      }
      ReplaceOne(s, Chosen(values, init), last, values[last]);
    }
  }

  // In a settled template the loop fills all holes as if at once, in any order.
  lemma SettledLoop(s: string, values: map<string, string>, order: seq<string>)
    requires Settled(s) && Sound(values) && Order(order, values.Keys) && forall n | n in order :: n in values
    ensures Replaced(s, values, order) == Fill(s, values)
  {
    assert Chosen(values, order) == values;
    ReplacedIs(s, values, order);
  }

  // What the loop makes of a template.
  function Loop(s: string, args: map<string, string>, order: seq<string>): string
    requires Order(order, args.Keys)
  {
    assert forall n | n in order :: n in (set m | m in order);
    Replaced(s, Escaped(args), order)
  }

  lemma SettledLoopOf(s: string, args: map<string, string>, order: seq<string>)
    requires Settled(s) && Named(args) && Order(order, args.Keys)
    ensures Loop(s, args, order) == Fill(s, Escaped(args))
  {
    EscapedSound(args);
    assert forall n | n in order :: n in (set m | m in order);
    SettledLoop(s, Escaped(args), order);
  }

  // ----- dropping what is left -----

  lemma KeepOne(s: string)
    requires s != "" && s[0] != '{'
    ensures RemovePlaceholders(s) == [s[0]] + RemovePlaceholders(s[1..])
  {
  }

  lemma {:induction false} KeepPlain(l: string, s: string)
    requires '{' !in l
    ensures RemovePlaceholders(l + s) == l + RemovePlaceholders(s)
  {
    hide RemovePlaceholders, IndexOf;
    if l == "" {
      assert l + s == s;
    } else {
      assert (l + s)[0] == l[0] && l[0] in l;
      KeepOne(l + s);
      assert (l + s)[1..] == l[1..] + s;
      KeepPlain(l[1..], s);
      assert [l[0]] + l[1..] == l;
    }
  }

  lemma DropHole(m: string, s: string)
    requires '}' !in m
    ensures RemovePlaceholders("{" + m + "}" + s) == (if m == "" then "{}" else "") + RemovePlaceholders(s)
  {
    var whole := "{" + m + "}" + s;
    assert whole[1..] == m + "}" + s && whole[1..][|m|] == '}';
    assert whole[1..][..|m|] == m;
    var close := IndexOf(whole[1..], '}');
    Indexed(whole[1..], '}', |m|);
    if m == "" {
      assert whole[1..] == "}" + s;
      KeepPlain("}", s);
    } else {
      assert whole[close + 2..] == s;
    }
  }

  // ----- the whole URL -----

  function Url(s: string, args: map<string, string>, order: seq<string>): string
    requires Order(order, args.Keys)
  {
    RemovePlaceholders(Loop(s, args, order))
  }

  // One pass: every hole is replaced at once, by its value or by nothing. "{}" is no placeholder.
  function OnePass(s: string, values: map<string, string>): string
    decreases |s|
  {
    if s == "" then ""
    else if HoleAt(s) then
      var name := HoleName(s);
      (if name in values then values[name] else if name == "" then "{}" else "") + OnePass(Behind(s), values)
    else [s[0]] + OnePass(s[1..], values)
  }

  // Braces open and close in turn.
  predicate Plain(s: string, open: bool) {
    if s == "" then !open
    else if s[0] == '{' then !open && Plain(s[1..], true)
    else if s[0] == '}' then open && Plain(s[1..], false)
    else Plain(s[1..], open)
  }

  lemma {:induction false} PlainOpen(s: string)
    requires Plain(s, true)
    ensures NextCloses(s) && Plain(s[|Upto(s)| + 1..], false)
  {
    if s[0] != '}' {
      PlainOpen(s[1..]);
      assert s[1..][|Upto(s[1..])| + 1..] == s[|Upto(s)| + 1..];
    }
  }

  // In a plain template every opening brace starts a hole.
  lemma PlainHole(s: string)
    requires Plain(s, false) && s != "" && s[0] == '{'
    ensures HoleAt(s) && Plain(Behind(s), false)
  {
    PlainOpen(s[1..]);
    assert s[1..][|HoleName(s)| + 1..] == Behind(s);
  }

  lemma {:induction false} PlainSettled(s: string)
    requires Plain(s, false)
    ensures Settled(s)
    decreases |s|
  {
    if s != "" {
      if s[0] == '{' {
        PlainHole(s);
        PlainSettled(Behind(s));
      } else {
        PlainSettled(s[1..]);
      }
    }
  }

  lemma {:induction false} PlainCleaned(s: string, values: map<string, string>)
    requires Plain(s, false) && Sound(values)
    ensures RemovePlaceholders(Fill(s, values)) == OnePass(s, values)
    decreases |s|
  {
    hide RemovePlaceholders, NoBraces, Upto, IndexOf;
    if s == "" {
      RemoveNothing();
    } else if s[0] == '{' {
      PlainHole(s);
      var name, rest := HoleName(s), Fill(Behind(s), values);
      PlainCleaned(Behind(s), values);
      if name in values {
        ValueText(values, name);
        KeepPlain(values[name], rest);
      } else {
        NameText(s);
        DropHole(name, rest);
      }
    } else {
      PlainCleaned(s[1..], values);
      KeepPlain([s[0]], Fill(s[1..], values));
    }
  }

  lemma NameText(s: string)
    requires HoleAt(s)
    ensures '}' !in HoleName(s)
  {
  }

  lemma ValueText(values: map<string, string>, name: string)
    requires Sound(values) && name in values
    ensures '{' !in values[name]
  {
  }

  lemma RemoveNothing()
    ensures RemovePlaceholders("") == ""
  {
  }

  // Whatever the order, the URL of a plain template is the simultaneous substitution.
  lemma OrderDoesNotMatter(s: string, args: map<string, string>, order: seq<string>)
    requires Plain(s, false) && Named(args) && Order(order, args.Keys)
    ensures Url(s, args, order) == OnePass(s, Escaped(args))
  {
    hide Plain, OnePass, Fill, Settled, RemovePlaceholders, PathEscape;
    PlainSettled(s);
    SettledLoopOf(s, args, order);
    EscapedSound(args);
    PlainCleaned(s, Escaped(args));
  }

  lemma OrderSnoc(order: seq<string>, names: set<string>, n: string)
    requires Order(order, names) && n !in names
    ensures Order(order + [n], names + {n}) && forall m :: m in order + [n] <==> m in order || m == n
  {
    assert forall m :: m in order <==> m in (set k | k in order);
    assert forall m :: m in order + [n] <==> m in order || m == n;
    assert (set k | k in order + [n]) == names + {n};
  }

  // ----- the source's loop -----

  // The placeholder loop of InvokableRun and the clean-up behind it: Go picks the next parameter,
  // here any choice will do.
  method Substitute(urlTpl: string, args: map<string, string>) returns (path: string)
    ensures exists order :: Order(order, args.Keys) && path == Url(urlTpl, args, order)
    ensures Named(args) && Settled(urlTpl) ==> path == RemovePlaceholders(Fill(urlTpl, Escaped(args)))
    ensures Named(args) && Plain(urlTpl, false) ==> path == OnePass(urlTpl, Escaped(args))
  {
    hide Plain, Fill, ReplaceAll, RemovePlaceholders, PathEscape, OnePass, Settled, Named;
    path := urlTpl;
    var rest := args.Keys;
    ghost var order: seq<string> := [];
    while rest != {}
      invariant rest <= args.Keys && Order(order, args.Keys - rest)
      invariant (forall n | n in order :: n in args) && path == Replaced(urlTpl, Escaped(args), order)
    {
      var paramName :| paramName in rest;
      var placeholder := "{" + paramName + "}";
      var encoded := PathEscape(args[paramName]);
      path := ReplaceAll(path, placeholder, encoded);
      OrderSnoc(order, args.Keys - rest, paramName);
      assert args.Keys - (rest - {paramName}) == (args.Keys - rest) + {paramName};
      order := order + [paramName];
      assert order[..|order| - 1] + [paramName] == order;
      rest := rest - {paramName};
    }
    assert args.Keys - rest == args.Keys;
    path := RemovePlaceholders(path);
    if Named(args) && Settled(urlTpl) {
      SettledLoopOf(urlTpl, args, order);
    }
    if Named(args) && Plain(urlTpl, false) {
      OrderDoesNotMatter(urlTpl, args, order);
    }
  }
}
