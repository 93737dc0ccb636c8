/** Empty query parameters of a URL are dropped, as at the end of tool/api_tool.go. */
module Query {
  import opened Prelude
  import opened Text

  // The parts of the query of a URL; none without a question mark.
  function Params(path: string): seq<string> {
    var q := IndexOf(path, '?');
    if q == -1 then [] else Split(path[q + 1..], '&')
  }

  function Base(path: string): string {
    var q := IndexOf(path, '?');
    if q == -1 then path else path[..q]
  }

  // name=value with a value
  predicate HasValue(p: string) {
    var eq := IndexOf(p, '=');
    eq != -1 && eq + 1 < |p|
  }

  function WithValues(ps: seq<string>): seq<string> {
    if ps == [] then [] else WithValues(ps[..|ps|-1]) + if HasValue(ps[|ps|-1]) then [ps[|ps|-1]] else []
  }

  function Clean(path: string): string {
    if IndexOf(path, '?') == -1 then path
    else
      var kept := WithValues(Params(path));
      if kept == [] then Base(path) else Base(path) + "?" + Join(kept, '&')
  }

  lemma WithValuesNone()
    ensures WithValues([]) == []
  {
  }

  lemma WithValuesSnoc(ps: seq<string>, p: string)
    ensures HasValue(p) ==> WithValues(ps + [p]) == WithValues(ps) + [p]
    ensures !HasValue(p) ==> WithValues(ps + [p]) == WithValues(ps)
  {
    assert (ps + [p])[..|ps|] == ps;
    assert WithValues(ps) + [] == WithValues(ps);
  }

  lemma {:induction false} WithValuesKeeps(ps: seq<string>)
    ensures forall p :: p in WithValues(ps) <==> p in ps && HasValue(p)
  {
    hide HasValue, WithValues;
    if ps == [] {
      WithValuesNone();
    } else {
      var init, last := ps[..|ps|-1], ps[|ps|-1];
      assert ps == init + [last];
      WithValuesKeeps(init);
      WithValuesSnoc(init, last);
    }
  }

  // A parameter stays exactly when it is a name, an equals sign and a value that is not empty.
  lemma HasValueIff(p: string)
    ensures HasValue(p) <==> exists name, value :: p == name + "=" + value && '=' !in name && value != ""
  {
    var eq := IndexOf(p, '=');
    if HasValue(p) {
      assert p == p[..eq] + "=" + p[eq + 1..] && p[eq + 1..] != "";
    }
    forall name, value | p == name + "=" + value && '=' !in name && value != ""
      ensures HasValue(p)
    {
      assert p[|name|] == '=' && p[..|name|] == name;
      Indexed(p, '=', |name|);
    }
  }

  // What is left of a list of parameters is what is left of its parts, one after the other.
  lemma {:induction false} WithValuesConcat(a: seq<string>, b: seq<string>)
    ensures WithValues(a + b) == WithValues(a) + WithValues(b)
    decreases |b|
  {
    hide HasValue, WithValues;
    if b == [] {
      WithValuesNone();
      assert a + b == a;
    } else {
      var init, last := b[..|b|-1], b[|b|-1];
      assert b == init + [last] && a + b == (a + init) + [last];
      WithValuesConcat(a, init);
      WithValuesSnoc(init, last);
      WithValuesSnoc(a + init, last);
    }
  }

  lemma {:induction false} WithValuesTwice(ps: seq<string>)
    ensures WithValues(WithValues(ps)) == WithValues(ps)
  {
    hide HasValue, WithValues;
    if ps == [] {
      WithValuesNone();
    } else {
      var init, last := ps[..|ps|-1], ps[|ps|-1];
      assert ps == init + [last];
      WithValuesTwice(init);
      WithValuesSnoc(init, last);
      WithValuesSnoc(WithValues(init), last);
    }
  }

  // A URL put together from a base and a query comes apart again.
  lemma Reassembled(base: string, query: string)
    requires '?' !in base
    ensures Base(base + "?" + query) == base && Params(base + "?" + query) == Split(query, '&')
    ensures Base(base) == base && Params(base) == []
  {
    hide Split;
    var url := base + "?" + query;
    assert url[..|base|] == base && url[|base|] == '?' && url[|base| + 1..] == query;
    Indexed(url, '?', |base|);
    assert IndexOf(base, '?') == -1;
  }

  lemma NoParams(path: string)
    ensures IndexOf(path, '?') == -1 ==> Params(path) == [] && Base(path) == path && WithValues(Params(path)) == []
  {
  }

  lemma BaseHasNoQuery(path: string)
    ensures '?' !in Base(path)
  {
  }

  // Cleaning keeps the base and, in their order, exactly the parameters that have a value.
  lemma CleanKeepsParams(path: string)
    ensures Base(Clean(path)) == Base(path)
    ensures Params(Clean(path)) == WithValues(Params(path))
  {
    hide Base, Params, HasValue, Split, Join;
    var kept, base := WithValues(Params(path)), Base(path);
    BaseHasNoQuery(path);
    NoParams(path);
    Reassembled(base, Join(kept, '&'));
    if IndexOf(path, '?') != -1 && kept != [] {
      KeptPieces(path);
      SplitJoin(kept, '&');
    }
  }

  lemma KeptPieces(path: string)
    ensures forall p | p in WithValues(Params(path)) :: '&' !in p
  {
    hide Split, HasValue;
    WithValuesKeeps(Params(path));
    var q := IndexOf(path, '?');
    if q != -1 {
      SplitHasNoSeparator(path[q + 1..], '&');
    }
  }

  lemma CleanTwice(path: string)
    ensures Clean(Clean(path)) == Clean(path)
  {
    CleanKeepsParams(path);
    WithValuesTwice(Params(path));
    var clean := Clean(path);
    var q := IndexOf(clean, '?');
    if q != -1 {
      assert IndexOf(path, '?') != -1;
      var kept := WithValues(Params(path));
      assert kept != [] by {
        assert '?' !in Base(path);
      }
      assert clean == Base(path) + "?" + Join(kept, '&');
    }
  }

  method CleanEmptyQueryParams(path: string) returns (r: string)
    ensures r == Clean(path)
  {
    var qIdx := IndexOf(path, '?');
    if qIdx == -1 {
      return path;
    }
    var base, parts := path[..qIdx], Split(path[qIdx + 1..], '&');
    var kept: seq<string> := [];
    for i := 0 to |parts|
      invariant kept == WithValues(parts[..i])
    {
      assert parts[..i + 1][..i] == parts[..i];
      var eq := IndexOf(parts[i], '=');
      if eq != -1 && parts[i][eq + 1..] != "" {
        kept := kept + [parts[i]];
      }
    }
    assert parts[..|parts|] == parts;
    r := if |kept| == 0 then base else base + "?" + Join(kept, '&');
  }
}
