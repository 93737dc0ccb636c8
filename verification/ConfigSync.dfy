/** Configs that share maps do so at equal paths only, and merging keeps it that way. */
module ConfigSync {
  import opened Prelude
  import opened ConfigTree
  import opened ConfigLayout
  import opened ConfigSharing

  // Two configs share objects only at the same path, and then all that lies below.
  ghost predicate Sync(x: Layout, y: Layout) {
    x == y || x.Item? || y.Item? ||
    (x.obj !in Objs(y) && y.obj !in Objs(x) &&
     (forall k | k in x.m && k in y.m :: Sync(x.m[k], y.m[k])) &&
     (forall j, k | j in x.m && k in y.m && j != k :: Objs(x.m[j]) !! Objs(y.m[k])))
  }

  lemma {:induction false} SyncBack(x: Layout, y: Layout)
    requires Sync(x, y)
    ensures Sync(y, x)
  {
    if x != y && x.Map? && y.Map? {
      forall k | k in x.m && k in y.m
        ensures Sync(y.m[k], x.m[k])
      {
        SyncBack(x.m[k], y.m[k]);
      }
    }
  }

  lemma {:induction false} ApartSync(x: Layout, y: Layout)
    requires Objs(x) !! Objs(y)
    ensures Sync(x, y)
  {
    if x.Map? && y.Map? {
      assert x.obj in Objs(x) && y.obj in Objs(y);
      forall j, k | j in x.m && k in y.m
        ensures Objs(x.m[j]) !! Objs(y.m[k])
      {
        Under(x, j);
        Under(y, k);
      }
      forall k | k in x.m && k in y.m
        ensures Sync(x.m[k], y.m[k])
      {
        ApartSync(x.m[k], y.m[k]);
      }
    }
  }

  // At different maps: what lies under a key of each.
  lemma SyncBelow(x: Layout, y: Layout, j: string, k: string)
    requires Sync(x, y) && Unshared(x) && x.Map? && y.Map? && j in x.m && k in y.m
    ensures j == k ==> Sync(x.m[j], y.m[k])
    ensures j != k ==> Objs(x.m[j]) !! Objs(y.m[k])
    ensures x.obj !in Objs(y.m[k])
  {
    if x != y {
      Under(y, k);
    }
  }

  // Where the objects under a key of an updated config come from.
  lemma {:induction false} UpdUnder(l: Layout, d: Layout, s: Layout, k: string)
    requires l.Map? && d.Map? && s.Map? && k in Upd(l, d, s).m
    ensures Objs(Upd(l, d, s).m[k]) <= (if k in l.m then Objs(l.m[k]) else {}) + (if k in s.m then Objs(s.m[k]) else {})
    decreases s
  {
    if l == d {
      MergedUnder(d, s, k);
    } else if k in d.m && k in s.m && l.m[k].Map? && d.m[k].Map? && s.m[k].Map? {
      UpdObjs(l.m[k], d.m[k], s.m[k]);
    }
  }

  lemma {:induction false} UpdObjs(l: Layout, d: Layout, s: Layout)
    requires l.Map? && d.Map? && s.Map?
    ensures Objs(Upd(l, d, s)) <= Objs(l) + Objs(s)
    decreases s
  {
    var r := Upd(l, d, s);
    forall k | k in r.m
      ensures Objs(r.m[k]) <= Objs(l) + Objs(s)
    {
      if l == d {
        MergedUnder(d, s, k);
      } else if k in d.m && k in s.m && l.m[k].Map? && d.m[k].Map? && s.m[k].Map? {
        UpdObjs(l.m[k], d.m[k], s.m[k]);
      }
      if k in l.m { Under(l, k); }
      if k in s.m { Under(s, k); }
    }
  }

  // What an update does under one key.
  lemma UpdAt(l: Layout, d: Layout, s: Layout, k: string)
    requires l.Map? && d.Map? && s.Map? && k in Upd(l, d, s).m
    ensures k in l.m || (l == d && k in s.m)
    ensures k in l.m && k in d.m && k in s.m && l.m[k].Map? && d.m[k].Map? && s.m[k].Map? ==>
              Upd(l, d, s).m[k] == Upd(l.m[k], d.m[k], s.m[k])
    ensures !(k in l.m && k in d.m && k in s.m && l.m[k].Map? && d.m[k].Map? && s.m[k].Map?) ==>
              Upd(l, d, s).m[k] == if l == d && k in s.m then s.m[k] else l.m[k]
  {
  }

  ghost predicate Fine3(l: Layout, d: Layout, s: Layout) {
    l.Map? && d.Map? && s.Map? && Unshared(l) && Unshared(d) && Unshared(s) && Sync(l, d) && Sync(l, s) && Sync(d, s)
  }

  lemma FineBelow(l: Layout, d: Layout, s: Layout, k: string)
    requires Fine3(l, d, s) && k in l.m && k in d.m && k in s.m && l.m[k].Map? && d.m[k].Map? && s.m[k].Map?
    ensures Fine3(l.m[k], d.m[k], s.m[k])
  {
    SyncBelow(l, d, k, k);
    SyncBelow(l, s, k, k);
    SyncBelow(d, s, k, k);
  }

  lemma {:induction false} UpdUnshared(l: Layout, d: Layout, s: Layout)
    requires Fine3(l, d, s)
    ensures Unshared(Upd(l, d, s))
    decreases s
  {
    if d == s {
      UpdSelf(l, d);
      return;
    }
    var r := Upd(l, d, s);
    forall k | k in r.m
      ensures r.obj !in Objs(r.m[k]) && Unshared(r.m[k])
    {
      UpdAt(l, d, s, k);
      UpdUnder(l, d, s, k);
      if k in s.m { 
        SyncRoot(l, s, k);
      }
      if k in l.m && k in d.m && k in s.m && l.m[k].Map? && d.m[k].Map? && s.m[k].Map? {
        FineBelow(l, d, s, k);
        UpdUnshared(l.m[k], d.m[k], s.m[k]);
      }
    }
    forall j, k | j in r.m && k in r.m && j != k
      ensures Objs(r.m[j]) !! Objs(r.m[k])
    {
      UpdUnder(l, d, s, j);
      UpdUnder(l, d, s, k);
      if j in l.m && k in s.m { SyncBelow(l, s, j, k); }
      if k in l.m && j in s.m { SyncBelow(l, s, k, j); }
    }
  }

  lemma SyncRoot(l: Layout, s: Layout, k: string)
    requires l.Map? && s.Map? && Unshared(l) && Sync(l, s) && k in s.m
    ensures l.obj !in Objs(s.m[k])
  {
    if l != s {
      Under(s, k);
    }
  }

  // Sharing stays at equal paths.
  lemma {:induction false} UpdSync(l: Layout, m: Layout, d: Layout, s: Layout)
    requires Fine3(l, d, s) && Fine3(m, d, s) && Sync(l, m)
    ensures Sync(Upd(l, d, s), Upd(m, d, s))
    decreases s, 1
  {
    if l == m {
      return;
    }
    if d == s {
      UpdSelf(l, d);
      UpdSelf(m, d);
      return;
    }
    var x, y := Upd(l, d, s), Upd(m, d, s);
    RootOutside(l, m, d, s);
    SyncBack(l, m);
    RootOutside(m, l, d, s);
    forall j, k | j in x.m && k in y.m && j != k
      ensures Objs(x.m[j]) !! Objs(y.m[k])
    {
      CrossApart(l, m, d, s, j, k);
    }
    forall k | k in x.m && k in y.m
      ensures Sync(x.m[k], y.m[k])
    {
      KeySync(l, m, d, s, k);
    }
  }

  lemma RootOutside(l: Layout, m: Layout, d: Layout, s: Layout)
    requires Fine3(l, d, s) && Fine3(m, d, s) && Sync(l, m) && l != m
    ensures l.obj !in Objs(Upd(m, d, s))
  {
    forall k | k in Upd(m, d, s).m
      ensures l.obj !in Objs(Upd(m, d, s).m[k])
    {
      UpdUnder(m, d, s, k);
      if k in m.m { Under(m, k); }
      if k in s.m { SyncRoot(l, s, k); }
    }
  }

  lemma CrossApart(l: Layout, m: Layout, d: Layout, s: Layout, j: string, k: string)
    requires Fine3(l, d, s) && Fine3(m, d, s) && Sync(l, m) && l != m && j != k
    requires j in Upd(l, d, s).m && k in Upd(m, d, s).m
    ensures Objs(Upd(l, d, s).m[j]) !! Objs(Upd(m, d, s).m[k])
  {
    UpdUnder(l, d, s, j);
    UpdUnder(m, d, s, k);
    SyncBack(m, s);
    if j in l.m && k in m.m { SyncBelow(l, m, j, k); }
    if j in l.m && k in s.m { SyncBelow(l, s, j, k); }
    if j in s.m && k in m.m { SyncBelow(s, m, j, k); }
  }

  lemma {:induction false} KeySync(l: Layout, m: Layout, d: Layout, s: Layout, k: string)
    requires Fine3(l, d, s) && Fine3(m, d, s) && Sync(l, m) && l != m
    requires k in Upd(l, d, s).m && k in Upd(m, d, s).m
    ensures Sync(Upd(l, d, s).m[k], Upd(m, d, s).m[k])
    decreases s, 0
  {
    UpdAt(l, d, s, k);
    UpdAt(m, d, s, k);
    if k in d.m && k in s.m && d.m[k].Map? && s.m[k].Map? {
      if k in l.m && k in m.m && l.m[k].Map? && m.m[k].Map? {
        FineBelow(l, d, s, k);
        FineBelow(m, d, s, k);
        SyncBelow(l, m, k, k);
        UpdSync(l.m[k], m.m[k], d.m[k], s.m[k]);
      }
    } else {
      SyncBack(m, s);
      if k in l.m && k in m.m { SyncBelow(l, m, k, k); }
      if k in l.m && k in s.m { SyncBelow(l, s, k, k); }
      if k in s.m && k in m.m { SyncBelow(s, m, k, k); }
      hide Upd, Unshared, Objs, Sync;
    }
  }
}
