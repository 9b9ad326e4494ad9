/**
  The keeper of per-account proxy identities: a timed recovery machine that may fall back
  to another country, and a uniqueness check over all accounts. One pass over one account
  is one step; between passes other code writes exits too. Probes, configuration and the
  answers of the store come from a world. Times are in nanoseconds.
 */
module StickyProxy {
  import opened Wrappers
  import opened ProviderErrors

  type AccountId = nat

  const FALLBACK_AFTER: nat := 300_000_000_000

  /** Addresses as numbers of 32 and of 128 bits. */
  type Bits32 = n: nat | n < 0x1_0000_0000
  type Bits128 = n: nat | n < 0x1_0000_0000_0000_0000_0000_0000_0000_0000

  datatype Ip = V4(bits: Bits32) | V6(wide: Bits128)

  datatype Subnet = Subnet4(prefix: nat) | Subnet6(prefix: nat)

  const TWO_80: nat := 0x1_0000_0000_0000_0000_0000

  /** The /24 of a v4 and the /48 of a v6 address. */
  function SubnetOf(ip: Ip): Subnet {
    match ip
    case V4(bits) => Subnet4(bits / 256)
    case V6(wide) => Subnet6(wide / TWO_80)
  }

  datatype Geo = Geo(ip: Ip, code: string)

  /** Only the session adapter owns sticky sessions and can target a country. */
  datatype Adapter = Generic | Session

  /** A row of account_network_identities; `code` is the country code of the exit. */
  datatype Row = Row(session: bool, ip: Option<Ip>, code: string, preferred: string, fallback: bool, rotation: Option<nat>)

  type Rows = map<AccountId, Row>

  /** What the keeper has done, as far as it was stored. */
  datatype Event =
    | Opened(account: AccountId, at: nat)
    | Healthy(account: AccountId, at: nat)
    | Cleared(account: AccountId)
    | Installed(account: AccountId, at: nat, geo: Geo, adapter: Adapter, preferred: string, fallback: bool, wasFallback: bool)

  datatype Net = Net(rows: Rows, log: seq<Event>)

  datatype World = World(
    now: nat, genericRow: bool, cleared: StoreReply, required: bool, linked: bool, proxied: set<AccountId>,
    adapter: Adapter, selected: bool, configured: StoreReply, hint: string, usable: bool, check: Option<Ip>, oldRead: bool, marked: StoreReply, opening: StoreReply,
    preferredProbe: Option<Geo>, probe: Option<Geo>, compared: bool, installed: StoreReply)

  predicate SameCode(a: string, b: string) {
    ToLower(a) == ToLower(b)
  }

  const NEW_ROW: Row := Row(false, None, "", "", false, None)

  // ---- the specification ----

  /** Another account exits through the same subnet. */
  predicate Collides(rows: Rows, a: AccountId, ip: Ip) {
    exists b :: b in rows && b != a && rows[b].ip.Some? && SubnetOf(rows[b].ip.value) == SubnetOf(ip)
  }

  /** The repository's own test, when it loads an account: the row's exit is also that of
      another account that must use a proxy. The keeper then gets an empty configuration. */
  predicate Shares(rows: Rows, a: AccountId, proxied: set<AccountId>) {
    && a in rows && rows[a].ip.Some?
    && exists b :: b in rows && b != a && b in proxied && rows[b].ip.Some?
                   && SubnetOf(rows[b].ip.value) == SubnetOf(rows[a].ip.value)
  }

  /** An UPDATE of the account's row with its log entry; no row, no update. */
  function Put(net: Net, a: AccountId, row: Row, e: Event, reply: StoreReply): Net {
    if reply.Refused? || a !in net.rows then net else Net(net.rows[a := row], net.log + [e])
  }

  function Clear(row: Row): Row {
    row.(session := false, fallback := false, rotation := None)
  }

  function Install(net: Net, a: AccountId, w: World, geo: Geo, fallback: bool): Net {
    if a !in net.rows then net
    else
      var row := net.rows[a];
      Put(net, a, row.(session := w.adapter.Session?, ip := Some(geo.ip), code := geo.code, fallback := fallback, rotation := None),
          Installed(a, w.now, geo, w.adapter, row.preferred, fallback, row.fallback), w.installed)
  }

  /** The configuration step: the generic adapter clears the row, the session adapter makes
      sure that there is a session; either may insert the row. */
  function Configure(net: Net, a: AccountId, w: World): Net {
    if w.configured.Refused? then net
    else
      var row := if a in net.rows then net.rows[a] else NEW_ROW;
      if w.adapter.Generic? then Net(net.rows[a := Clear(row)], net.log + [Cleared(a)])
      else net.(rows := net.rows[a := row.(session := true, preferred := if row.preferred != "" then row.preferred else w.hint)])
  }

  predicate NeedsConfig(net: Net, a: AccountId, w: World) {
    w.adapter.Generic? || !w.selected || a !in net.rows || !net.rows[a].session
  }

  /** Generic pools only observe health and place. */
  function ObserveGeneric(net: Net, a: AccountId, w: World): Net {
    if w.probe.None? then (if a in net.rows then Put(net, a, Clear(net.rows[a]), Cleared(a), w.marked) else net)
    else if !w.compared || Collides(net.rows, a, w.probe.value.ip) then net
    else Install(net, a, w, w.probe.value, false)
  }

  /** The fallback is healthy: go back as soon as the preferred country offers a free exit. */
  function ProbePreferred(net: Net, a: AccountId, w: World): Net
    requires a in net.rows
  {
    var cc := net.rows[a].preferred;
    if cc == "" || w.preferredProbe.None? || !SameCode(w.preferredProbe.value.code, cc) then net
    else if !w.compared || Collides(net.rows, a, w.preferredProbe.value.ip) then net
    else Install(net, a, w, w.preferredProbe.value, false)
  }

  function Open(net: Net, a: AccountId, w: World): Net
    requires a in net.rows
  {
    if net.rows[a].rotation.Some? then net
    else Put(net, a, net.rows[a].(rotation := Some(w.now)), Opened(a, w.now), w.opening)
  }

  /** Another country is acceptable: already on fallback, or recovering for five minutes. */
  predicate MayFallBack(row: Row, now: nat) {
    row.fallback || (row.rotation.Some? && now - row.rotation.value >= FALLBACK_AFTER)
  }

  function Accept(net: Net, a: AccountId, w: World, mayFallBack: bool): Net
    requires a in net.rows
  {
    var cc := net.rows[a].preferred;
    if w.probe.None? then net
    else if !mayFallBack && cc != "" && !SameCode(w.probe.value.code, cc) then net
    else if !w.compared || Collides(net.rows, a, w.probe.value.ip) then net
    else Install(net, a, w, w.probe.value, mayFallBack)
  }

  function Keep(net: Net, a: AccountId, w: World): Net
    requires a in net.rows
  {
    var row := net.rows[a];
    if w.check.Some? && w.oldRead && row.ip == w.check then
      if row.fallback then ProbePreferred(net, a, w)
      else Put(net, a, row.(rotation := None), Healthy(a, w.now), w.marked)
    else Accept(Open(net, a, w), a, w, MayFallBack(row, w.now))
  }

  function Maintain(net0: Net, a: AccountId, w: World): Net {
    var net := if w.genericRow && a in net0.rows then Put(net0, a, Clear(net0.rows[a]), Cleared(a), w.cleared) else net0;
    if (w.genericRow && !w.cleared.Acked?) || !w.required || (w.linked && Shares(net.rows, a, w.proxied)) then net
    else
      var ready := if NeedsConfig(net, a, w) then Configure(net, a, w) else net;
      if (NeedsConfig(net, a, w) && !w.configured.Acked?) || !w.usable then ready
      else if w.adapter.Generic? then ObserveGeneric(ready, a, w)
      else Keep(ready, a, w)
  }

  // ---- the keeper ----

  class Identities {
    var rows: Rows
    ghost var log: seq<Event>

    ghost function State(): Net reads this {
      Net(rows, log)
    }

    constructor ()
      ensures State() == Net(map[], [])
    {
      rows, log := map[], [];
    }

    method Update(a: AccountId, row: Row, ghost e: Event, reply: StoreReply)
      modifies this
      ensures State() == Put(old(State()), a, row, e, reply)
    {
      if !reply.Refused? && a in rows { rows, log := rows[a := row], log + [e]; }
    }

    method ClearRow(a: AccountId, reply: StoreReply)
      modifies this
      ensures State() == if a in old(rows) then Put(old(State()), a, Clear(old(rows)[a]), Cleared(a), reply) else old(State())
    {
      if a in rows { Update(a, rows[a].(session := false, fallback := false, rotation := None), Cleared(a), reply); }
    }

    /** SELECT EXISTS over the rows of all other accounts. */
    method FindCollision(a: AccountId, ip: Ip) returns (collision: bool)
      ensures collision <==> Collides(rows, a, ip)
      ensures !collision <==> forall b :: b in rows && b != a && rows[b].ip.Some? ==> SubnetOf(rows[b].ip.value) != SubnetOf(ip)
    {
      collision := false;
      var todo := rows.Keys;
      while todo != {}
        invariant todo <= rows.Keys
        invariant collision <==> exists b :: b in rows && b !in todo && b != a && rows[b].ip.Some? && SubnetOf(rows[b].ip.value) == SubnetOf(ip)
      {
        var b :| b in todo;
        todo := todo - {b};
        if b != a && rows[b].ip.Some? && (rows[b].ip.value == ip || SubnetOf(rows[b].ip.value) == SubnetOf(ip)) {
          collision := true;
        }
      }
    }

    /** The same, against the row's own exit and over the accounts that must use a proxy. */
    method SharesExit(a: AccountId, proxied: set<AccountId>) returns (shares: bool)
      ensures shares <==> Shares(rows, a, proxied)
      ensures a !in rows || rows[a].ip.None? ==> !shares
      ensures a in rows && rows[a].ip.Some? ==>
                (shares <==> exists b :: b in rows && b != a && b in proxied && rows[b].ip.Some?
                                         && SubnetOf(rows[b].ip.value) == SubnetOf(rows[a].ip.value))
    {
      if a !in rows || rows[a].ip.None? { return false; }
      shares := false;
      var todo := rows.Keys;
      while todo != {}
        invariant todo <= rows.Keys
        invariant shares <==> exists b :: b in rows && b !in todo && b != a && b in proxied && rows[b].ip.Some?
                                          && SubnetOf(rows[b].ip.value) == SubnetOf(rows[a].ip.value)
      {
        var b :| b in todo;
        todo := todo - {b};
        if b != a && b in proxied && rows[b].ip.Some? && SubnetOf(rows[b].ip.value) == SubnetOf(rows[a].ip.value) {
          shares := true;
        }
      }
    }

    method InstallIdentity(a: AccountId, w: World, geo: Geo, fallback: bool)
      modifies this
      ensures State() == Install(old(State()), a, w, geo, fallback)
    {
      if a !in rows { return; }
      var row := rows[a];
      Update(a, row.(session := w.adapter == Session, ip := Some(geo.ip), code := geo.code, fallback := fallback, rotation := None),
             Installed(a, w.now, geo, w.adapter, row.preferred, fallback, row.fallback), w.installed);
    }

    method StickyConfig(a: AccountId, w: World) returns (ok: bool)
      modifies this
      ensures State() == if NeedsConfig(old(State()), a, w) then Configure(old(State()), a, w) else old(State())
      ensures ok == (NeedsConfig(old(State()), a, w) ==> w.configured.Acked?)
    {
      if w.adapter == Session && w.selected && a in rows && rows[a].session { return true; }
      if !w.configured.Refused? {
        var row := if a in rows then rows[a] else NEW_ROW;
        if w.adapter == Generic {
          rows, log := rows[a := Clear(row)], log + [Cleared(a)];
        } else {
          rows := rows[a := row.(session := true, preferred := if row.preferred != "" then row.preferred else w.hint)];
        }
      }
      ok := w.configured.Acked?;
    }

    method KeepGeneric(a: AccountId, w: World)
      modifies this
      ensures State() == ObserveGeneric(old(State()), a, w)
    {
      if w.probe.None? { ClearRow(a, w.marked); return; }
      if !w.compared { return; }
      var collision := FindCollision(a, w.probe.value.ip);
      if !collision { InstallIdentity(a, w, w.probe.value, false); }
    }

    method ReturnToPreferred(a: AccountId, w: World)
      requires a in rows
      modifies this
      ensures State() == ProbePreferred(old(State()), a, w)
    {
      var cc := rows[a].preferred;
      if cc == "" || w.preferredProbe.None? { return; }
      var geo := w.preferredProbe.value;
      if !SameCode(geo.code, cc) || !w.compared { return; }
      var collision := FindCollision(a, geo.ip);
      if !collision { InstallIdentity(a, w, geo, false); }
    }

    method Recover(a: AccountId, w: World)
      requires a in rows
      modifies this
      ensures State() == Accept(Open(old(State()), a, w), a, w, MayFallBack(old(rows)[a], w.now))
    {
      var cc, fallback, started := rows[a].preferred, rows[a].fallback, rows[a].rotation;
      if started.None? {
        Update(a, rows[a].(rotation := Some(w.now)), Opened(a, w.now), w.opening);
        started := Some(w.now);
      }
      var allowFallback := fallback || w.now - started.value >= FALLBACK_AFTER;
      if w.probe.None? { return; }
      if !allowFallback && cc != "" && !SameCode(w.probe.value.code, cc) { return; }
      if !w.compared { return; }
      var collision := FindCollision(a, w.probe.value.ip);
      if !collision { InstallIdentity(a, w, w.probe.value, allowFallback); }
    }

    method MaintainStickyIdentity(a: AccountId, w: World)
      modifies this
      ensures State() == Maintain(old(State()), a, w)
    {
      if w.genericRow {
        ClearRow(a, w.cleared);
        if !w.cleared.Acked? { return; }
      }
      if !w.required { return; }
      if w.linked {
        var shares := SharesExit(a, w.proxied);
        if shares { return; }
      }
      var ok := StickyConfig(a, w);
      if !ok || !w.usable { return; }
      if w.adapter == Generic { KeepGeneric(a, w); return; }
      if w.check.Some? && w.oldRead && rows[a].ip == w.check {
        if rows[a].fallback {
          ReturnToPreferred(a, w);
        } else {
          Update(a, rows[a].(rotation := None), Healthy(a, w.now), w.marked);
        }
        return;
      }
      Recover(a, w);
    }

    /** INSERT ... ON CONFLICT DO UPDATE of the exit alone, with no check of its own. */
    method UpsertExit(a: AccountId, geo: Geo, reply: StoreReply)
      modifies this
      ensures State() == if reply.Refused? then old(State()) else Upsert(old(State()), a, geo)
      ensures !reply.Refused? ==>
                var row := if a in old(rows) then old(rows)[a] else Row(false, None, "", "", false, None);
                rows == old(rows)[a := row.(ip := Some(geo.ip), code := geo.code)]
    {
      if !reply.Refused? {
        var row := if a in rows then rows[a] else NEW_ROW;
        rows := rows[a := row.(ip := Some(geo.ip), code := geo.code)];
      }
    }

    /** INSERT ... ON CONFLICT DO NOTHING of an exit that the proxy is known to have. */
    method BackfillExit(a: AccountId, geo: Geo, reply: StoreReply)
      modifies this
      ensures State() == if reply.Refused? || a in old(rows) then old(State()) else Upsert(old(State()), a, geo)
      ensures !reply.Refused? && a !in old(rows) ==>
                rows == old(rows)[a := Row(false, Some(geo.ip), geo.code, "", false, None)]
    {
      if a !in rows { UpsertExit(a, geo, reply); }
    }
  }

  // ---- histories ----

  /** Another writer stores an exit: a row is inserted or keeps its session and fallback. */
  function Upsert(net: Net, a: AccountId, geo: Geo): Net {
    var row := if a in net.rows then net.rows[a] else NEW_ROW;
    net.(rows := net.rows[a := row.(ip := Some(geo.ip), code := geo.code)])
  }

  /** What happens: a keeper pass; a proxy test that overwrites the exit without a check;
      a backfill of a missing row; or a check and, later, the write it allows. */
  datatype Step =
    | Pass(account: AccountId, w: World)
    | Overwrite(account: AccountId, geo: Geo, reply: StoreReply)
    | Backfill(account: AccountId, geo: Geo, reply: StoreReply)
    | Check(writer: nat, account: AccountId, geo: Geo)
    | Write(writer: nat, reply: StoreReply)

  /** A check that has been made: for which exit, and whether it found no collision. */
  datatype Look = Look(account: AccountId, geo: Geo, clean: bool)

  datatype System = System(net: Net, looks: map<nat, Look>)

  datatype Exit = Exit(account: AccountId, geo: Geo)

  /** The exit that a step outside the keeper's passes stores, if it takes effect. */
  function Stores(s: System, step: Step): Option<Exit> {
    match step
    case Overwrite(a, geo, reply) => if reply.Refused? then None else Some(Exit(a, geo))
    case Backfill(a, geo, reply) => if reply.Refused? || a in s.net.rows then None else Some(Exit(a, geo))
    case Write(k, reply) =>
      if reply.Refused? || k !in s.looks || !s.looks[k].clean then None
      else Some(Exit(s.looks[k].account, s.looks[k].geo))
    case _ => None
  }

  function Take(s: System, step: Step): System {
    match step
    case Pass(a, w) => s.(net := Maintain(s.net, a, w))
    case Check(k, a, geo) => s.(looks := s.looks[k := Look(a, geo, !Collides(s.net.rows, a, geo.ip))])
    case _ =>
      var exit := Stores(s, step);
      System(if exit.Some? then Upsert(s.net, exit.value.account, exit.value.geo) else s.net,
             if step.Write? then s.looks - {step.writer} else s.looks)
  }

  const NOTHING: System := System(Net(map[], []), map[])

  function After(ss: seq<Step>): System {
    if ss == [] then NOTHING else Take(After(ss[..|ss| - 1]), ss[|ss| - 1])
  }

  lemma AfterNext(ss: seq<Step>, n: nat)
    requires n < |ss|
    ensures After(ss[..n + 1]) == Take(After(ss[..n]), ss[n])
  {
    assert ss[..n + 1][..n] == ss[..n];
  }

  // ---- fallback ----

  /** Since when recovery of an account has been open with no healthy check, accepted
      identity or reset in between, if it is open. */
  function OpenSince(log: seq<Event>, a: AccountId): Option<nat> {
    if log == [] then None
    else
      var e := log[|log| - 1];
      if e.account != a then OpenSince(log[..|log| - 1], a)
      else if e.Opened? then Some(e.at)
      else None
  }

  /** A stored event in its place: fallback is switched on only five minutes into an open
      recovery, and the session adapter leaves the preferred country only with fallback on. */
  ghost predicate InPlace(before: seq<Event>, e: Event) {
    e.Installed? ==>
      && (e.fallback && !e.wasFallback ==>
            OpenSince(before, e.account).Some? && e.at - OpenSince(before, e.account).value >= FALLBACK_AFTER)
      && (e.adapter.Session? && !e.fallback && e.preferred != "" ==> SameCode(e.geo.code, e.preferred))
  }

  ghost predicate Orderly(log: seq<Event>) {
    forall n :: 0 <= n < |log| ==> InPlace(log[..n], log[n])
  }

  ghost predicate Sound(net: Net) {
    && Orderly(net.log)
    && (forall a :: (if a in net.rows then net.rows[a].rotation else None) == OpenSince(net.log, a))
  }

  lemma PutSound(net: Net, a: AccountId, row: Row, e: Event, reply: StoreReply)
    requires Sound(net) && e.account == a && InPlace(net.log, e)
    requires row.rotation == if e.Opened? then Some(e.at) else None
    ensures Sound(Put(net, a, row, e, reply))
  {
    var log := net.log + [e];
    assert log[..|net.log|] == net.log;
    forall n | 0 <= n < |log| ensures InPlace(log[..n], log[n]) {
      if n < |net.log| { assert log[..n] == net.log[..n]; }
    }
  }

  lemma InstallSound(net: Net, a: AccountId, w: World, geo: Geo, fallback: bool)
    requires Sound(net)
    requires a in net.rows ==> InPlace(net.log, Installed(a, w.now, geo, w.adapter, net.rows[a].preferred, fallback, net.rows[a].fallback))
    ensures Sound(Install(net, a, w, geo, fallback))
  {
    if a in net.rows {
      var row := net.rows[a];
      PutSound(net, a, row.(session := w.adapter.Session?, ip := Some(geo.ip), code := geo.code, fallback := fallback, rotation := None),
               Installed(a, w.now, geo, w.adapter, row.preferred, fallback, row.fallback), w.installed);
    }
  }

  lemma ClearSound(net: Net, a: AccountId, reply: StoreReply)
    requires Sound(net) && a in net.rows
    ensures Sound(Put(net, a, Clear(net.rows[a]), Cleared(a), reply))
  {
    PutSound(net, a, Clear(net.rows[a]), Cleared(a), reply);
  }

  lemma ConfigureSound(net: Net, a: AccountId, w: World)
    requires Sound(net)
    ensures Sound(Configure(net, a, w))
  {
    if !w.configured.Refused? {
      var row := if a in net.rows then net.rows[a] else NEW_ROW;
      var inserted := net.(rows := net.rows[a := row]);
      assert Sound(inserted);
      if w.adapter.Generic? { ClearSound(inserted, a, Acked); }
    }
  }

  lemma OpenSound(net: Net, a: AccountId, w: World)
    requires Sound(net) && a in net.rows
    ensures Sound(Open(net, a, w))
  {
    if net.rows[a].rotation.None? {
      PutSound(net, a, net.rows[a].(rotation := Some(w.now)), Opened(a, w.now), w.opening);
    }
  }

  lemma AcceptSound(net: Net, a: AccountId, w: World, mayFallBack: bool)
    requires Sound(net) && a in net.rows && w.adapter.Session?
    requires mayFallBack ==> MayFallBack(net.rows[a], w.now)
    ensures Sound(Accept(net, a, w, mayFallBack))
  {
    if w.probe.Some? && (mayFallBack || net.rows[a].preferred == "" || SameCode(w.probe.value.code, net.rows[a].preferred)) {
      InstallSound(net, a, w, w.probe.value, mayFallBack);
    }
  }

  lemma KeepSound(net: Net, a: AccountId, w: World)
    requires Sound(net) && a in net.rows && w.adapter.Session?
    ensures Sound(Keep(net, a, w))
  {
    var row := net.rows[a];
    if w.check.Some? && w.oldRead && row.ip == w.check {
      if row.fallback {
        var geo := w.preferredProbe;
        if geo.Some? && SameCode(geo.value.code, row.preferred) { InstallSound(net, a, w, geo.value, false); }
      } else {
        PutSound(net, a, row.(rotation := None), Healthy(a, w.now), w.marked);
      }
    } else {
      OpenSound(net, a, w);
      AcceptSound(Open(net, a, w), a, w, MayFallBack(row, w.now));
    }
  }

  lemma GenericSound(net: Net, a: AccountId, w: World)
    requires Sound(net) && w.adapter.Generic?
    ensures Sound(ObserveGeneric(net, a, w))
  {
    if w.probe.None? {
      if a in net.rows { ClearSound(net, a, w.marked); }
    } else {
      InstallSound(net, a, w, w.probe.value, false);
    }
  }

  lemma MaintainSound(net: Net, a: AccountId, w: World)
    requires Sound(net)
    ensures Sound(Maintain(net, a, w))
  {
    if w.genericRow && a in net.rows { ClearSound(net, a, w.cleared); }
    var cleared := if w.genericRow && a in net.rows then Put(net, a, Clear(net.rows[a]), Cleared(a), w.cleared) else net;
    if !(w.genericRow && !w.cleared.Acked?) && w.required && !(w.linked && Shares(cleared.rows, a, w.proxied)) {
      var ready := if NeedsConfig(cleared, a, w) then Configure(cleared, a, w) else cleared;
      ConfigureSound(cleared, a, w);
      if !(NeedsConfig(cleared, a, w) && !w.configured.Acked?) && w.usable {
        if w.adapter.Generic? { GenericSound(ready, a, w); } else { KeepSound(ready, a, w); }
      }
    }
  }

  lemma {:induction false} AfterSound(ss: seq<Step>)
    ensures Sound(After(ss).net)
  {
    if ss != [] {
      var init, step := ss[..|ss| - 1], ss[|ss| - 1];
      AfterSound(init);
      if step.Pass? { MaintainSound(After(init).net, step.account, step.w); }
    }
  }

  /** Fallback is switched on only after recovery has been open for five minutes with no
      healthy check and no accepted identity in between, whoever else writes exits. */
  lemma {:induction false} FallbackNeedsFiveMinutes(ss: seq<Step>, n: nat)
    requires n < |After(ss).net.log| && After(ss).net.log[n].Installed?
    requires After(ss).net.log[n].fallback && !After(ss).net.log[n].wasFallback
    ensures var e := After(ss).net.log[n]; var since := OpenSince(After(ss).net.log[..n], e.account);
      since.Some? && e.at - since.value >= 300_000_000_000
  {
    AfterSound(ss);
    assert InPlace(After(ss).net.log[..n], After(ss).net.log[n]);
  }

  // ---- distinct exits ----

  ghost predicate Distinct(rows: Rows) {
    forall a, b :: a in rows && b in rows && a != b && rows[a].ip.Some? && rows[b].ip.Some? ==>
      SubnetOf(rows[a].ip.value) != SubnetOf(rows[b].ip.value)
  }

  /** A row that gets an exit keeps exits distinct exactly when nobody else has that subnet. */
  lemma ExitIsDistinctExactly(rows: Rows, a: AccountId, row: Row)
    requires Distinct(rows) && row.ip.Some?
    ensures Distinct(rows[a := row]) <==> !Collides(rows, a, row.ip.value)
  {
    var after := rows[a := row];
    if b :| b in rows && b != a && rows[b].ip.Some? && SubnetOf(rows[b].ip.value) == SubnetOf(row.ip.value) {
      assert after[b] == rows[b] && after[a] == row;
    }
  }

  /** In particular, for the install of a keeper that takes effect. */
  lemma InstallIsDistinctExactly(net: Net, a: AccountId, w: World, geo: Geo, fallback: bool)
    requires Distinct(net.rows) && a in net.rows && !w.installed.Refused?
    ensures Distinct(Install(net, a, w, geo, fallback).rows) <==> !Collides(net.rows, a, geo.ip)
  {
    ExitIsDistinctExactly(net.rows, a, Install(net, a, w, geo, fallback).rows[a]);
  }

  lemma InstallDistinct(net: Net, a: AccountId, w: World, geo: Geo, fallback: bool)
    requires Distinct(net.rows) && !Collides(net.rows, a, geo.ip)
    ensures Distinct(Install(net, a, w, geo, fallback).rows)
  {
    if a in net.rows && !w.installed.Refused? { InstallIsDistinctExactly(net, a, w, geo, fallback); }
  }

  lemma KeepDistinct(net: Net, a: AccountId, w: World)
    requires Distinct(net.rows) && a in net.rows
    ensures Distinct(Keep(net, a, w).rows)
  {
    var recovering := Open(net, a, w);
    assert Distinct(recovering.rows);
    if w.probe.Some? && !Collides(recovering.rows, a, w.probe.value.ip) {
      InstallDistinct(recovering, a, w, w.probe.value, MayFallBack(net.rows[a], w.now));
    }
    if w.preferredProbe.Some? && !Collides(net.rows, a, w.preferredProbe.value.ip) {
      InstallDistinct(net, a, w, w.preferredProbe.value, false);
    }
  }

  lemma MaintainDistinct(net: Net, a: AccountId, w: World)
    requires Distinct(net.rows)
    ensures Distinct(Maintain(net, a, w).rows)
  {
    var cleared := if w.genericRow && a in net.rows then Put(net, a, Clear(net.rows[a]), Cleared(a), w.cleared) else net;
    var ready := if NeedsConfig(cleared, a, w) then Configure(cleared, a, w) else cleared;
    ConfigureDistinct(cleared, a, w);
    if w.adapter.Session? {
      if a in ready.rows { KeepDistinct(ready, a, w); }
    } else {
      GenericDistinct(ready, a, w);
    }
  }

  lemma ConfigureDistinct(net: Net, a: AccountId, w: World)
    requires Distinct(net.rows)
    ensures Distinct(Configure(net, a, w).rows)
  {
  }

  lemma GenericDistinct(net: Net, a: AccountId, w: World)
    requires Distinct(net.rows)
    ensures Distinct(ObserveGeneric(net, a, w).rows)
  {
    if w.probe.Some? && !Collides(net.rows, a, w.probe.value.ip) {
      InstallDistinct(net, a, w, w.probe.value, false);
    }
  }

  /** The step stores an exit in a subnet that another account has at that moment. */
  predicate Clashes(s: System, step: Step) {
    var exit := Stores(s, step);
    exit.Some? && Collides(s.net.rows, exit.value.account, exit.value.geo.ip)
  }

  lemma TakeDistinct(s: System, step: Step)
    requires Distinct(s.net.rows)
    ensures Distinct(Take(s, step).net.rows) <==> !Clashes(s, step)
  {
    if step.Pass? {
      MaintainDistinct(s.net, step.account, step.w);
    } else if Stores(s, step).Some? {
      var exit := Stores(s, step).value;
      ExitIsDistinctExactly(s.net.rows, exit.account, Upsert(s.net, exit.account, exit.geo).rows[exit.account]);
    }
  }

  /** Uniqueness, exactly: over any mix of keeper passes, unchecked writes and writes that
      were checked earlier, no two accounts ever exit through one subnet if and only if no
      write outside the passes stores an exit whose subnet is taken when it is stored. */
  lemma ExitsStayDistinctExactly(ss: seq<Step>)
    ensures (forall n :: 0 <= n <= |ss| ==> Distinct(After(ss[..n]).net.rows))
       <==> (forall n :: 0 <= n < |ss| ==> !Clashes(After(ss[..n]), ss[n]))
  {
    if forall n :: 0 <= n < |ss| ==> !Clashes(After(ss[..n]), ss[n]) {
      forall n | 0 <= n <= |ss| ensures Distinct(After(ss[..n]).net.rows) {
        DistinctSoFar(ss, n);
      }
    } else {
      var n :| 0 <= n < |ss| && Clashes(After(ss[..n]), ss[n]);
      if Distinct(After(ss[..n]).net.rows) {
        TakeDistinct(After(ss[..n]), ss[n]);
        AfterNext(ss, n);
        assert !Distinct(After(ss[..n + 1]).net.rows);
      }
    }
  }

  lemma {:induction false} DistinctSoFar(ss: seq<Step>, n: nat)
    requires n <= |ss| && forall m :: 0 <= m < |ss| ==> !Clashes(After(ss[..m]), ss[m])
    ensures Distinct(After(ss[..n]).net.rows)
    decreases n
  {
    if n > 0 {
      DistinctSoFar(ss, n - 1);
      AfterNext(ss, n - 1);
      TakeDistinct(After(ss[..n - 1]), ss[n - 1]);
    }
  }

  /** Where nothing clashes, no two accounts exit through one subnet, hence never through
      one address. Passes of the keeper never clash. */
  lemma {:induction false} SubnetsStayDistinct(ss: seq<Step>, a: AccountId, b: AccountId)
    requires forall n :: 0 <= n < |ss| ==> ss[n].Pass? || !Clashes(After(ss[..n]), ss[n])
    requires a in After(ss).net.rows && b in After(ss).net.rows && a != b
    requires After(ss).net.rows[a].ip.Some? && After(ss).net.rows[b].ip.Some?
    ensures SubnetOf(After(ss).net.rows[a].ip.value) != SubnetOf(After(ss).net.rows[b].ip.value)
    ensures After(ss).net.rows[a].ip != After(ss).net.rows[b].ip
  {
    assert forall n :: 0 <= n < |ss| ==> !Clashes(After(ss[..n]), ss[n]);
    ExitsStayDistinctExactly(ss);
    assert ss[..|ss|] == ss;
    assert Distinct(After(ss[..|ss|]).net.rows);
  }

  // ---- the check is not atomic ----

  predicate ExitsIn(rows: Rows, b: AccountId, subnet: Subnet) {
    b in rows && rows[b].ip.Some? && SubnetOf(rows[b].ip.value) == subnet
  }

  /** Steps `m` and `n` are the check and the write of one writer, and the check was clean. */
  ghost predicate CheckThenWrite(ss: seq<Step>, m: nat, n: nat) {
    && m < n < |ss| && ss[m].Check? && ss[n].Write? && ss[n].writer == ss[m].writer && !ss[n].reply.Refused?
    && !Collides(After(ss[..m]).net.rows, ss[m].account, ss[m].geo.ip)
    && (forall i :: m < i < n ==> !((ss[i].Check? || ss[i].Write?) && ss[i].writer == ss[m].writer))
  }

  /** A checked write clashes exactly when another account has moved into its subnet
      between the check and the write. */
  lemma CheckedWriteClashesExactlyWhenOvertaken(ss: seq<Step>, m: nat, n: nat)
    requires CheckThenWrite(ss, m, n)
    ensures Clashes(After(ss[..n]), ss[n]) <==>
              exists b :: b != ss[m].account && ExitsIn(After(ss[..n]).net.rows, b, SubnetOf(ss[m].geo.ip))
                          && !ExitsIn(After(ss[..m]).net.rows, b, SubnetOf(ss[m].geo.ip))
  {
    LookStays(ss, m, n, n);
    var before, after := After(ss[..m]).net.rows, After(ss[..n]).net.rows;
    CollidesAsExits(before, ss[m].account, ss[m].geo.ip);
    CollidesAsExits(after, ss[m].account, ss[m].geo.ip);
    assert Stores(After(ss[..n]), ss[n]) == Some(Exit(ss[m].account, ss[m].geo));
  }

  lemma CollidesAsExits(rows: Rows, a: AccountId, ip: Ip)
    ensures Collides(rows, a, ip) <==> exists b :: b != a && ExitsIn(rows, b, SubnetOf(ip))
  {
    if b :| b != a && ExitsIn(rows, b, SubnetOf(ip)) {
      assert b in rows && rows[b].ip.Some? && SubnetOf(rows[b].ip.value) == SubnetOf(ip);
    }
    if b :| b in rows && b != a && rows[b].ip.Some? && SubnetOf(rows[b].ip.value) == SubnetOf(ip) {
      assert ExitsIn(rows, b, SubnetOf(ip));
    }
  }

  lemma {:induction false} LookStays(ss: seq<Step>, m: nat, n: nat, i: nat)
    requires CheckThenWrite(ss, m, n) && m < i <= n
    ensures var looks := After(ss[..i]).looks;
      ss[m].writer in looks && looks[ss[m].writer] == Look(ss[m].account, ss[m].geo, true)
    decreases i
  {
    AfterNext(ss, i - 1);
    if i > m + 1 { LookStays(ss, m, n, i - 1); }
  }

  /** The concrete race: two writers check before either writes. */
  lemma CheckThenWriteRaces(geo: Geo)
    ensures var ss := [Check(0, 0, geo), Check(1, 1, geo), Write(0, Acked), Write(1, Acked)];
      !Distinct(After(ss).net.rows)
  {
    var s1 := Take(NOTHING, Check(0, 0, geo));
    var s2 := Take(s1, Check(1, 1, geo));
    var s3 := Take(s2, Write(0, Acked));
    var s4 := Take(s3, Write(1, Acked));
    assert s4.net.rows == map[0 := NEW_ROW.(ip := Some(geo.ip), code := geo.code), 1 := NEW_ROW.(ip := Some(geo.ip), code := geo.code)];
    var rows := s4.net.rows;
    assert 0 in rows && 1 in rows && rows[0].ip == Some(geo.ip) == rows[1].ip;
    AfterFour(Check(0, 0, geo), Check(1, 1, geo), Write(0, Acked), Write(1, Acked));
  }

  lemma AfterFour(a: Step, b: Step, c: Step, d: Step)
    ensures After([a, b, c, d]) == Take(Take(Take(Take(NOTHING, a), b), c), d)
  {
    var ss := [a, b, c, d];
    AfterNext(ss, 0);
    AfterNext(ss, 1);
    AfterNext(ss, 2);
    AfterNext(ss, 3);
    assert ss[..4] == ss && ss[..0] == [];
  }

  // ---- sharing an exit ----

  /** A pass over an account that must use its proxy and has the session adapter. */
  predicate SessionPass(w: World, proxied: set<AccountId>) {
    !w.genericRow && w.required && w.linked && w.adapter.Session? && w.proxied == proxied
  }

  /** The keeper cannot repair a shared exit: no pass changes anything of an account whose
      exit is shared with another account that uses a proxy. As long as some exit is free,
      that is so for an account with a session if and only if its exit is shared. */
  lemma SharingIsNeverRepaired(net: Net, a: AccountId, proxied: set<AccountId>)
    requires a in net.rows && net.rows[a].session
    ensures Shares(net.rows, a, proxied) ==> forall w :: SessionPass(w, proxied) ==> Maintain(net, a, w) == net
    ensures (exists ip :: !Collides(net.rows, a, ip)) ==>
              ((forall w :: SessionPass(w, proxied) ==> Maintain(net, a, w) == net) <==> Shares(net.rows, a, proxied))
  {
    if !Shares(net.rows, a, proxied) {
      if ip :| !Collides(net.rows, a, ip) { FreeExitChangesTheRow(net, a, proxied, ip); }
    }
  }

  /** A pass that finds the old exit gone and a free one in the preferred country. */
  function Rescue(proxied: set<AccountId>, geo: Geo): World {
    World(0, false, Acked, true, true, proxied, Session, true, Acked, "", true, None, true, Acked, Acked,
          None, Some(geo), true, Acked)
  }

  lemma FreeExitChangesTheRow(net: Net, a: AccountId, proxied: set<AccountId>, ip: Ip)
    requires a in net.rows && net.rows[a].session && !Shares(net.rows, a, proxied) && !Collides(net.rows, a, ip)
    ensures exists w :: SessionPass(w, proxied) && Maintain(net, a, w) != net
  {
    var geo := Geo(ip, net.rows[a].preferred);
    var w := Rescue(proxied, geo);
    var recovering := Open(net, a, w);
    assert !Collides(recovering.rows, a, geo.ip);
    assert |Maintain(net, a, w).log| > |net.log|;
    assert SessionPass(w, proxied);
  }

  // ---- the preferred country ----

  /** The passes over account `a` use the session adapter, and the country code of its proxy
      is `cc` until the row has taken it over. */
  ghost predicate Targets(ss: seq<Step>, a: AccountId, cc: string) {
    forall n :: 0 <= n < |ss| && ss[n].Pass? && ss[n].account == a ==> Targeting(After(ss[..n]).net, a, ss[n].w, cc)
  }

  ghost predicate Targeting(net: Net, a: AccountId, w: World, cc: string) {
    !w.genericRow && w.adapter.Session? && ((a in net.rows ==> net.rows[a].preferred == "") ==> w.hint == cc)
  }

  ghost predicate AtHome(net: Net, a: AccountId, cc: string) {
    a in net.rows && net.rows[a].ip.Some? && !net.rows[a].fallback ==> SameCode(net.rows[a].code, cc)
  }

  /** Rows with a session prefer the country; a row that others inserted has no session yet. */
  ghost predicate Prefers(net: Net, a: AccountId, cc: string) {
    a in net.rows ==> net.rows[a].preferred == cc || (!net.rows[a].session && net.rows[a].preferred == "")
  }

  /** The step gives account `a`, while it is not on fallback, an exit in another country. */
  ghost predicate Exiles(s: System, step: Step, a: AccountId, cc: string) {
    var exit := Stores(s, step);
    && exit.Some? && exit.value.account == a && !SameCode(exit.value.geo.code, cc)
    && (a in s.net.rows ==> !s.net.rows[a].fallback)
  }

  /** With a fixed preferred country, an account that has an exit and is not on fallback
      always exits in that country if and only if no other writer gives it, while it is not
      on fallback, an exit elsewhere. Passes alone never do. */
  lemma AtHomeExactly(ss: seq<Step>, a: AccountId, cc: string)
    requires cc != "" && Targets(ss, a, cc)
    ensures (forall n :: 0 <= n <= |ss| ==> AtHome(After(ss[..n]).net, a, cc))
       <==> (forall n :: 0 <= n < |ss| ==> !Exiles(After(ss[..n]), ss[n], a, cc))
  {
    if forall n :: 0 <= n < |ss| ==> !Exiles(After(ss[..n]), ss[n], a, cc) {
      forall n | 0 <= n <= |ss| ensures AtHome(After(ss[..n]).net, a, cc) {
        HomeSoFar(ss, a, cc, n);
      }
    } else {
      var n :| 0 <= n < |ss| && Exiles(After(ss[..n]), ss[n], a, cc);
      AfterNext(ss, n);
      assert !AtHome(After(ss[..n + 1]).net, a, cc);
    }
  }

  /** The same for histories of passes, which also keep the preferred code of the row. */
  lemma {:induction false} AtHomeUnlessOnFallback(ss: seq<Step>, a: AccountId, cc: string)
    requires cc != "" && Targets(ss, a, cc)
    requires forall n :: 0 <= n < |ss| ==> ss[n].Pass? || !Exiles(After(ss[..n]), ss[n], a, cc)
    ensures AtHome(After(ss).net, a, cc) && Prefers(After(ss).net, a, cc)
  {
    assert forall n :: 0 <= n < |ss| ==> !Exiles(After(ss[..n]), ss[n], a, cc);
    HomeSoFar(ss, a, cc, |ss|);
    assert ss[..|ss|] == ss;
  }

  lemma {:induction false} HomeSoFar(ss: seq<Step>, a: AccountId, cc: string, n: nat)
    requires n <= |ss| && cc != "" && Targets(ss, a, cc)
    requires forall m :: 0 <= m < |ss| ==> !Exiles(After(ss[..m]), ss[m], a, cc)
    ensures AtHome(After(ss[..n]).net, a, cc) && Prefers(After(ss[..n]).net, a, cc)
    decreases n
  {
    if n > 0 {
      HomeSoFar(ss, a, cc, n - 1);
      AfterNext(ss, n - 1);
      var s, step := After(ss[..n - 1]), ss[n - 1];
      if step.Pass? {
        if step.account == a { MaintainAtHome(s.net, a, step.w, cc); } else { OthersUntouched(s.net, step.account, step.w, a); }
      }
    }
  }

  lemma MaintainAtHome(net: Net, a: AccountId, w: World, cc: string)
    requires AtHome(net, a, cc) && Prefers(net, a, cc) && cc != ""
    requires Targeting(net, a, w, cc)
    ensures AtHome(Maintain(net, a, w), a, cc) && Prefers(Maintain(net, a, w), a, cc)
  {
    var ready := if NeedsConfig(net, a, w) then Configure(net, a, w) else net;
    assert AtHome(ready, a, cc) && Prefers(ready, a, cc);
    if a in ready.rows && ready.rows[a].preferred == cc { KeepAtHome(ready, a, w, cc); }
  }

  lemma KeepAtHome(net: Net, a: AccountId, w: World, cc: string)
    requires AtHome(net, a, cc) && a in net.rows && net.rows[a].preferred == cc != ""
    ensures AtHome(Keep(net, a, w), a, cc) && a in Keep(net, a, w).rows && Keep(net, a, w).rows[a].preferred == cc
  {
    assert AtHome(Open(net, a, w), a, cc);
  }

  lemma OthersUntouched(net: Net, b: AccountId, w: World, a: AccountId)
    requires a != b
    ensures a in Maintain(net, b, w).rows <==> a in net.rows
    ensures a in net.rows ==> Maintain(net, b, w).rows[a] == net.rows[a]
  {
    var cleared := if w.genericRow && b in net.rows then Put(net, b, Clear(net.rows[b]), Cleared(b), w.cleared) else net;
    var ready := if NeedsConfig(cleared, b, w) then Configure(cleared, b, w) else cleared;
    assert a in ready.rows <==> a in net.rows;
    assert a in net.rows ==> ready.rows[a] == net.rows[a];
    if b in ready.rows { KeepUntouched(ready, b, w, a); }
  }

  lemma KeepUntouched(net: Net, b: AccountId, w: World, a: AccountId)
    requires a != b && b in net.rows
    ensures a in Keep(net, b, w).rows <==> a in net.rows
    ensures a in net.rows ==> Keep(net, b, w).rows[a] == net.rows[a]
  {
  }
}
