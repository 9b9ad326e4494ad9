/** The provider inventory: the diff against the local rows, and the sync into them. */
module Inventory {
  import opened Wrappers
  import opened Keys

  datatype Resource = Resource(
    account: string, provider: string, providerId: string, kind: string, state: string, managed: bool, metadata: string)

  datatype DifferenceKind = UnknownResource | MissingResource | StateChanged

  datatype Difference = Difference(kind: DifferenceKind, resource: Resource)

  function Key(r: Resource): string {
    r.provider + ":" + r.account + ":" + r.kind + ":" + r.providerId
  }

  /** What the table's unique index identifies a row by. */
  datatype Identity = Identity(account: string, provider: string, kind: string, providerId: string)

  function IdentityOf(r: Resource): Identity {
    Identity(r.account, r.provider, r.kind, r.providerId)
  }

  predicate Plain(r: Resource) {
    ':' !in r.provider && ':' !in r.account && ':' !in r.kind
  }

  /** The key tells resources apart exactly like the unique index, as long as no field but
      the provider's id holds a colon. */
  lemma KeyIsInjective(r: Resource, s: Resource)
    requires Plain(r) && Plain(s)
    ensures Key(r) == Key(s) <==> IdentityOf(r) == IdentityOf(s)
  {
    var r3, s3 := ":" + r.providerId, ":" + s.providerId;
    var r2, s2 := ":" + (r.kind + r3), ":" + (s.kind + s3);
    var r1, s1 := ":" + (r.account + r2), ":" + (s.account + s2);
    assert Key(r) == r.provider + r1 && Key(s) == s.provider + s1;
    FrontField(r.provider, r1, s.provider, s1);
    assert r1[1..] == r.account + r2 && s1[1..] == s.account + s2;
    FrontField(r.account, r2, s.account, s2);
    assert r2[1..] == r.kind + r3 && s2[1..] == s.kind + s3;
    FrontField(r.kind, r3, s.kind, s3);
    assert r3[1..] == r.providerId && s3[1..] == s.providerId;
  }

  /** With a colon in another field two different resources can share a key. */
  lemma ColonsCollide(r: Resource, s: Resource)
    requires r == Resource("b", "a:x", "1", "droplet", "", false, "") && s == Resource("x:b", "a", "1", "droplet", "", false, "")
    ensures Key(r) == Key(s) && IdentityOf(r) != IdentityOf(s)
  {
    assert Key(r) == "a:x" + ":" + "b" + ":" + "droplet" + ":" + "1";
    assert Key(s) == "a" + ":" + "x:b" + ":" + "droplet" + ":" + "1";
    assert Key(r) == "a:x:b:droplet:1" == Key(s);
  }

  // ---- the diff ----

  /** Resources by key; of several with one key the last wins. */
  function ByKey(rs: seq<Resource>): (m: map<string, Resource>)
    ensures forall k :: k in m ==> Key(m[k]) == k && m[k] in rs
    ensures forall r :: r in rs ==> Key(r) in m
  {
    if rs == [] then map[] else ByKey(rs[..|rs| - 1])[Key(rs[|rs| - 1]) := rs[|rs| - 1]]
  }

  ghost predicate LastWithKey(rs: seq<Resource>, k: string, n: nat) {
    n < |rs| && Key(rs[n]) == k && forall m :: n < m < |rs| ==> Key(rs[m]) != k
  }

  lemma {:induction false} LastWins(rs: seq<Resource>, k: string, n: nat)
    requires LastWithKey(rs, k, n)
    ensures k in ByKey(rs) && ByKey(rs)[k] == rs[n]
    decreases |rs|
  {
    ByKeySnoc(rs, k);
    if n < |rs| - 1 {
      assert Key(rs[|rs| - 1]) != k;
      LastInFront(rs, k, n, |rs| - 1);
      LastWins(rs[..|rs| - 1], k, n);
    }
  }

  lemma LastInFront(rs: seq<Resource>, k: string, n: nat, m: nat)
    requires LastWithKey(rs, k, n) && n < m <= |rs|
    ensures LastWithKey(rs[..m], k, n)
  {
  }

  ghost predicate Differs(local: map<string, Resource>, remote: map<string, Resource>, d: Difference) {
    var k := Key(d.resource);
    match d.kind
    case UnknownResource => k in remote && k !in local && d.resource == remote[k]
    case StateChanged => k in remote && k in local && local[k].state != remote[k].state && d.resource == remote[k]
    case MissingResource => k in local && k !in remote && d.resource == local[k]
  }

  ghost predicate NoKeyTwice(ds: seq<Difference>) {
    forall m, n :: 0 <= m < n < |ds| ==> Key(ds[m].resource) != Key(ds[n].resource)
  }

  ghost predicate Indexed(m: map<string, Resource>) {
    forall k :: k in m ==> Key(m[k]) == k
  }

  /** The diff holds every difference of the two inventories once, and nothing else. */
  method Compare(local: seq<Resource>, provider: seq<Resource>) returns (out: seq<Difference>)
    ensures forall d :: d in out <==> Differs(ByKey(local), ByKey(provider), d)
    ensures NoKeyTwice(out)
  {
    var localByKey := Index(local);
    var remoteByKey := Index(provider);
    out := CompareRemote(localByKey, remoteByKey);
    out := CompareLocal(localByKey, remoteByKey, out);
  }

  /** The loop over the remote resources. */
  method CompareRemote(localByKey: map<string, Resource>, remoteByKey: map<string, Resource>) returns (out: seq<Difference>)
    requires Indexed(localByKey) && Indexed(remoteByKey)
    ensures forall d :: d in out <==> Differs(localByKey, remoteByKey, d) && d.kind != MissingResource
    ensures NoKeyTwice(out)
  {
    out := [];
    var todo := remoteByKey.Keys;
    while todo != {}
      invariant todo <= remoteByKey.Keys
      invariant forall d :: d in out <==>
        Differs(localByKey, remoteByKey, d) && d.kind != MissingResource && Key(d.resource) !in todo
      invariant NoKeyTwice(out)
    {
      var k :| k in todo;
      todo := todo - {k};
      var remote := remoteByKey[k];
      if k !in localByKey {
        out := out + [Difference(UnknownResource, remote)];
        continue;
      }
      if localByKey[k].state != remote.state {
        out := out + [Difference(StateChanged, remote)];
      }
    }
  }

  /** The loop over the local resources, appending to what the other loop found. */
  method CompareLocal(localByKey: map<string, Resource>, remoteByKey: map<string, Resource>, found: seq<Difference>)
    returns (out: seq<Difference>)
    requires Indexed(localByKey) && Indexed(remoteByKey) && NoKeyTwice(found)
    requires forall d :: d in found <==> Differs(localByKey, remoteByKey, d) && d.kind != MissingResource
    ensures forall d :: d in out <==> Differs(localByKey, remoteByKey, d)
    ensures NoKeyTwice(out)
  {
    out := found;
    var todo := localByKey.Keys;
    while todo != {}
      invariant todo <= localByKey.Keys
      invariant forall d :: d in out <==>
        Differs(localByKey, remoteByKey, d) && (d.kind == MissingResource ==> Key(d.resource) !in todo)
      invariant NoKeyTwice(out)
    {
      var k :| k in todo;
      todo := todo - {k};
      if k !in remoteByKey {
        out := out + [Difference(MissingResource, localByKey[k])];
      }
    }
  }

  method Index(rs: seq<Resource>) returns (m: map<string, Resource>)
    ensures m == ByKey(rs)
  {
    m := map[];
    for n := 0 to |rs|
      invariant m == ByKey(rs[..n])
    {
      assert rs[..n + 1][..n] == rs[..n];
      m := m[Key(rs[n]) := rs[n]];
    }
    assert rs[..|rs|] == rs;
  }

  // ---- patching ----

  function States(m: map<string, Resource>): map<string, string> {
    map k | k in m :: m[k].state
  }

  /** What a reader of the diff would do with one difference. */
  function Patch(states: map<string, string>, d: Difference): map<string, string> {
    if d.kind.MissingResource? then states - {Key(d.resource)} else states[Key(d.resource) := d.resource.state]
  }

  function PatchAll(states: map<string, string>, ds: seq<Difference>): map<string, string> {
    if ds == [] then states else Patch(PatchAll(states, ds[..|ds| - 1]), ds[|ds| - 1])
  }

  lemma {:induction false} PatchedAt(states: map<string, string>, ds: seq<Difference>, k: string)
    requires NoKeyTwice(ds)
    ensures var after := PatchAll(states, ds);
      && (forall d :: d in ds && Key(d.resource) == k ==>
            if d.kind.MissingResource? then k !in after else k in after && after[k] == d.resource.state)
      && ((forall d :: d in ds ==> Key(d.resource) != k) ==>
            (k in after <==> k in states) && (k in after ==> after[k] == states[k]))
  {
    if ds != [] { PatchedAt(states, ds[..|ds| - 1], k); }
  }

  /** The diff is exact: whatever lists are compared, and in whatever order the differences
      come out, patching the local states with them gives the remote states. */
  lemma {:induction false} PatchingGivesTheRemote(local: seq<Resource>, provider: seq<Resource>, ds: seq<Difference>)
    requires forall d :: d in ds <==> Differs(ByKey(local), ByKey(provider), d)
    requires NoKeyTwice(ds)
    ensures PatchAll(States(ByKey(local)), ds) == States(ByKey(provider))
  {
    var l, r := ByKey(local), ByKey(provider);
    var after := PatchAll(States(l), ds);
    forall k ensures (k in after <==> k in r) && (k in after && k in r ==> after[k] == r[k].state) {
      PatchedAt(States(l), ds, k);
      PatchedKey(l, r, ds, after, k);
    }
  }

  lemma PatchedKey(l: map<string, Resource>, r: map<string, Resource>, ds: seq<Difference>, after: map<string, string>, k: string)
    requires Indexed(l) && Indexed(r) && (forall d :: d in ds <==> Differs(l, r, d))
    requires forall d :: d in ds && Key(d.resource) == k ==>
               if d.kind.MissingResource? then k !in after else k in after && after[k] == d.resource.state
    requires (forall d :: d in ds ==> Key(d.resource) != k) ==>
               (k in after <==> k in States(l)) && (k in after ==> after[k] == States(l)[k])
    ensures (k in after <==> k in r) && (k in after && k in r ==> after[k] == r[k].state)
  {
    if k in r && k !in l {
      assert Differs(l, r, Difference(UnknownResource, r[k]));
    } else if k in r && l[k].state != r[k].state {
      assert Differs(l, r, Difference(StateChanged, r[k]));
    } else if k in l && k !in r {
      assert Differs(l, r, Difference(MissingResource, l[k]));
    }
  }

  // ---- the table ----

  type Rows = map<Identity, Resource>

  ghost predicate Keyed(rows: Rows) {
    forall i :: i in rows ==> IdentityOf(rows[i]) == i
  }

  ghost predicate RowsOk(rows: Rows) {
    Keyed(rows) && forall i :: i in rows ==> Plain(rows[i])
  }

  /** INSERT ... ON CONFLICT DO UPDATE SET state, metadata. */
  function Upsert(rows: Rows, item: Resource): Rows {
    var i := IdentityOf(item);
    rows[i := if i in rows then rows[i].(state := item.state, metadata := item.metadata) else item]
  }

  function Upserted(rows: Rows, items: seq<Resource>): Rows {
    if items == [] then rows else Upsert(Upserted(rows, items[..|items| - 1]), items[|items| - 1])
  }

  /** The row of identity `i` after a sync. Without a listed item it is as before. With one it
      takes the state and the metadata of the last item; its other columns stay, or come from
      the first item if the row is new. */
  ghost predicate SyncedRow(before: Rows, after: Rows, items: seq<Resource>, i: Identity) {
    && ((forall n :: 0 <= n < |items| ==> IdentityOf(items[n]) != i) ==>
          (i in after <==> i in before) && (i in before ==> after[i] == before[i]))
    && (forall m, n :: FirstOf(items, i, m) && LastOf(items, i, n) ==> Listed(before, after, items, i, m, n))
  }

  ghost predicate FirstOf(items: seq<Resource>, i: Identity, n: int) {
    0 <= n < |items| && IdentityOf(items[n]) == i && forall m :: 0 <= m < n ==> IdentityOf(items[m]) != i
  }

  ghost predicate LastOf(items: seq<Resource>, i: Identity, n: int) {
    0 <= n < |items| && IdentityOf(items[n]) == i && forall m :: n < m < |items| ==> IdentityOf(items[m]) != i
  }

  lemma UpsertedExactly(rows: Rows, items: seq<Resource>, i: Identity)
    ensures SyncedRow(rows, Upserted(rows, items), items, i)
  {
    if forall n :: 0 <= n < |items| ==> IdentityOf(items[n]) != i {
      UnlistedStays(rows, items, i);
    } else {
      forall m, n | FirstOf(items, i, m) && LastOf(items, i, n) ensures Listed(rows, Upserted(rows, items), items, i, m, n) {
        ListedRow(rows, items, i, m, n);
      }
    }
  }

  ghost predicate Listed(before: Rows, after: Rows, items: seq<Resource>, i: Identity, m: int, n: int)
    requires 0 <= m < |items| && 0 <= n < |items|
  {
    && i in after
    && after[i] == (if i in before then before[i] else items[m]).(state := items[n].state, metadata := items[n].metadata)
  }

  lemma {:induction false} UnlistedStays(rows: Rows, items: seq<Resource>, i: Identity)
    requires forall n :: 0 <= n < |items| ==> IdentityOf(items[n]) != i
    ensures i in Upserted(rows, items) <==> i in rows
    ensures i in rows ==> Upserted(rows, items)[i] == rows[i]
  {
    if items != [] {
      assert IdentityOf(items[|items| - 1]) != i;
      UnlistedStays(rows, items[..|items| - 1], i);
    }
  }

  lemma {:induction false} ListedRow(rows: Rows, items: seq<Resource>, i: Identity, m: nat, n: nat)
    requires FirstOf(items, i, m) && LastOf(items, i, n)
    ensures Listed(rows, Upserted(rows, items), items, i, m, n)
    decreases |items|
  {
    var k := |items| - 1;
    var init := items[..k];
    if n < k {
      assert IdentityOf(items[k]) != i;
      LastInPrefix(items, i, n, k);
      ListedRow(rows, init, i, m, n);
    } else if m < k {
      var l := LastBelow(init, i, m);
      ListedRow(rows, init, i, m, l);
    } else {
      UnlistedStays(rows, init, i);
    }
  }

  lemma LastInPrefix(items: seq<Resource>, i: Identity, n: nat, k: nat)
    requires LastOf(items, i, n) && n < k <= |items|
    ensures LastOf(items[..k], i, n)
  {
  }

  lemma {:induction false} LastBelow(items: seq<Resource>, i: Identity, m: nat) returns (n: nat)
    requires m < |items| && IdentityOf(items[m]) == i
    ensures LastOf(items, i, n)
    decreases |items|
  {
    var k := |items| - 1;
    if IdentityOf(items[k]) == i { return k; }
    n := LastBelow(items[..k], i, m);
    assert items[..k][n] == items[n];
  }

  datatype SyncError = TenantMismatch | StatementFailed | CommitFailed

  class Registry {
    var rows: Rows

    ghost predicate Valid() reads this {
      Keyed(rows)
    }

    constructor ()
      ensures Valid() && rows == map[]
    {
      rows := map[];
    }

    /** One transaction. Items of another tenant, and failing statements, roll it back. */
    method Sync(account: string, items: seq<Resource>, failing: set<nat>, commit: StoreReply) returns (err: Option<SyncError>)
      requires Valid()
      modifies this
      ensures Valid()
      ensures err == Some(TenantMismatch) ==> exists n :: 0 <= n < |items| && items[n].account != account
      ensures (exists n :: 0 <= n < |items| && items[n].account != account) ==> err.Some? && rows == old(rows)
      ensures (exists n: nat :: n < |items| && n in failing) ==> err.Some? && rows == old(rows)
      ensures (forall n :: 0 <= n < |items| ==> items[n].account == account && n !in failing) ==>
                rows == (if commit.Refused? then old(rows) else Upserted(old(rows), items)) && (err.None? <==> commit.Acked?)
      ensures err.None? ==> forall i :: SyncedRow(old(rows), rows, items, i)
    {
      var before := rows;
      var work := rows;
      for n := 0 to |items|
        invariant rows == before && Keyed(work) && work == Upserted(before, items[..n])
        invariant forall m :: 0 <= m < n ==> items[m].account == account && m !in failing
      {
        assert items[..n + 1][..n] == items[..n];
        if items[n].account != account { return Some(TenantMismatch); }
        if n in failing { return Some(StatementFailed); }
        work := Upsert(work, items[n]);
      }
      assert items[..|items|] == items;
      forall i ensures SyncedRow(before, work, items, i) { UpsertedExactly(before, items, i); }
      if !commit.Refused? { rows := work; }
      err := if commit.Acked? then None else Some(CommitFailed);
    }

    /** The rows of an account, each once, in any order. */
    method Find(account: string) returns (out: seq<Resource>)
      requires Valid()
      ensures Lists(out, rows, account)
    {
      out := [];
      var todo := rows.Keys;
      while todo != {}
        invariant todo <= rows.Keys
        invariant forall n :: 0 <= n < |out| ==> OfAccount(rows, account, out[n]) && IdentityOf(out[n]) !in todo
        invariant forall i :: i in rows && i !in todo && rows[i].account == account ==> rows[i] in out
        invariant forall m, n :: 0 <= m < n < |out| ==> out[m] != out[n]
      {
        var i :| i in todo;
        todo := todo - {i};
        if rows[i].account == account { out := out + [rows[i]]; }
      }
    }
  }

  ghost predicate OfAccount(rows: Rows, account: string, r: Resource) {
    IdentityOf(r) in rows && rows[IdentityOf(r)] == r && r.account == account
  }

  /** A listing of the rows of an account: all of them, nothing else, none twice. */
  ghost predicate Lists(out: seq<Resource>, rows: Rows, account: string) {
    && (forall n :: 0 <= n < |out| ==> OfAccount(rows, account, out[n]))
    && (forall i :: i in rows && rows[i].account == account ==> rows[i] in out)
    && (forall m, n :: 0 <= m < n < |out| ==> out[m] != out[n])
  }

  // ---- sync, then compare ----

  /** Find, indexed by key, is the account's part of the table. */
  lemma FoundByKey(rows: Rows, account: string, out: seq<Resource>, r: Resource)
    requires RowsOk(rows) && Lists(out, rows, account) && Plain(r) && r.account == account
    ensures Key(r) in ByKey(out) <==> IdentityOf(r) in rows
    ensures Key(r) in ByKey(out) ==> ByKey(out)[Key(r)] == rows[IdentityOf(r)]
  {
    var m := ByKey(out);
    if Key(r) in m {
      var s := m[Key(r)];
      var n :| 0 <= n < |out| && out[n] == s;
      assert OfAccount(rows, account, out[n]);
      KeyIsInjective(r, s);
    }
    if IdentityOf(r) in rows {
      KeyIsInjective(r, rows[IdentityOf(r)]);
      assert rows[IdentityOf(r)] in out;
    }
  }

  ghost predicate Own(items: seq<Resource>, account: string) {
    forall n :: 0 <= n < |items| ==> items[n].account == account && Plain(items[n])
  }

  lemma {:induction false} UpsertedOk(rows: Rows, items: seq<Resource>, account: string)
    requires RowsOk(rows) && Own(items, account)
    ensures RowsOk(Upserted(rows, items))
  {
    if items != [] { UpsertedOk(rows, items[..|items| - 1], account); }
  }

  /** Rows that are listed take the state listed last; all other rows stay as they are. */
  lemma {:induction false} UpsertedAt(rows: Rows, items: seq<Resource>, account: string, r: Resource)
    requires RowsOk(rows) && Own(items, account) && Plain(r)
    ensures var after := Upserted(rows, items); var i := IdentityOf(r);
      if Key(r) in ByKey(items) then i in after && after[i].state == ByKey(items)[Key(r)].state
      else (i in after <==> i in rows) && (i in rows ==> after[i] == rows[i])
  {
    if items != [] {
      var init, item := items[..|items| - 1], items[|items| - 1];
      UpsertedAt(rows, init, account, r);
      KeyIsInjective(r, item);
      UpsertAt(Upserted(rows, init), item, IdentityOf(r));
      ByKeySnoc(items, Key(r));
    }
  }

  lemma UpsertAt(rows: Rows, item: Resource, i: Identity)
    ensures var after := Upsert(rows, item);
      if i == IdentityOf(item) then i in after && after[i].state == item.state
      else (i in after <==> i in rows) && (i in rows ==> after[i] == rows[i])
  {
  }

  lemma ByKeySnoc(items: seq<Resource>, k: string)
    requires items != []
    ensures var last := items[|items| - 1]; var before := ByKey(items[..|items| - 1]);
      if k == Key(last) then k in ByKey(items) && ByKey(items)[k] == last
      else (k in ByKey(items) <==> k in before) && (k in before ==> ByKey(items)[k] == before[k])
  {
  }

  /** After a sync with a remote list, comparing with that list again reports only missing
      resources, and exactly those that were missing before. */
  lemma {:induction false} SyncLeavesOnlyMissing(rows: Rows, account: string, remote: seq<Resource>,
      before: seq<Resource>, after: seq<Resource>, d: Difference)
    requires RowsOk(rows) && Own(remote, account)
    requires Lists(before, rows, account) && Lists(after, Upserted(rows, remote), account)
    ensures Differs(ByKey(after), ByKey(remote), d) <==> d.kind == MissingResource && Differs(ByKey(before), ByKey(remote), d)
  {
    UpsertedOk(rows, remote, account);
    var r := d.resource;
    if Differs(ByKey(after), ByKey(remote), d) || Differs(ByKey(before), ByKey(remote), d) {
      OwnResource(rows, Upserted(rows, remote), account, remote, before, after, d);
      FoundByKey(rows, account, before, r);
      FoundByKey(Upserted(rows, remote), account, after, r);
      UpsertedAt(rows, remote, account, r);
    }
  }

  lemma OwnResource(rows: Rows, rows': Rows, account: string, remote: seq<Resource>,
      before: seq<Resource>, after: seq<Resource>, d: Difference)
    requires RowsOk(rows) && RowsOk(rows') && Own(remote, account)
    requires Lists(before, rows, account) && Lists(after, rows', account)
    requires Differs(ByKey(after), ByKey(remote), d) || Differs(ByKey(before), ByKey(remote), d)
    ensures Plain(d.resource) && d.resource.account == account
  {
    assert d.resource in remote || d.resource in after || d.resource in before;
  }
}
