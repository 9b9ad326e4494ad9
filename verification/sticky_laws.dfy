/** What one pass of the keeper does, and what its comparisons mean. */
module StickyLaws {
  import opened Wrappers
  import opened ProviderErrors
  import opened StickyProxy

  // ---- subnets and country codes ----

  type Octet = n: nat | n < 256

  /** The v4 address a.b.c.d. */
  function Address(a: Octet, b: Octet, c: Octet, d: Octet): Ip {
    V4(((a * 256 + b) * 256 + c) * 256 + d)
  }

  type Bits48 = n: nat | n < 0x1_0000_0000_0000
  type Bits80 = n: nat | n < 0x1_0000_0000_0000_0000_0000

  /** The v6 address with these first 48 and last 80 bits. */
  function Address6(network: Bits48, host: Bits80): Ip {
    V6(network * 0x1_0000_0000_0000_0000_0000 + host)
  }

  /** Two v4 addresses share a subnet exactly when their first three octets agree, two v6
      addresses exactly when their first 48 bits do; an address of each never. */
  lemma SubnetsExactly(a: Octet, b: Octet, c: Octet, d: Octet, a': Octet, b': Octet, c': Octet, d': Octet,
                       n: Bits48, h: Bits80, n': Bits48, h': Bits80)
    ensures SubnetOf(Address(a, b, c, d)) == SubnetOf(Address(a', b', c', d')) <==> a == a' && b == b' && c == c'
    ensures SubnetOf(Address6(n, h)) == SubnetOf(Address6(n', h')) <==> n == n'
    ensures SubnetOf(Address(a, b, c, d)) != SubnetOf(Address6(n, h))
  {
  }

  /** Codes agree whatever their case. */
  lemma CodesIgnoreCase()
    ensures SameCode("VE", "ve") && SameCode("ve", "Ve") && !SameCode("ve", "us") && !SameCode("ve", "")
  {
    assert ToLower("VE") == "ve" && ToLower("Ve") == "ve" && ToLower("ve") == "ve";
    assert ToLower("us")[0] == 'u' && ToLower("ve")[0] == 'v';
  }

  // ---- one pass ----

  /** Exit `ip` is free for account `a`: no other account exits through its subnet. */
  ghost predicate Free(rows: Rows, a: AccountId, ip: Ip) {
    forall b :: b in rows && b != a && rows[b].ip.Some? ==> SubnetOf(rows[b].ip.value) != SubnetOf(ip)
  }

  /** A probed exit can be taken: it was seen, compared with all others and found free, and
      the write takes effect. */
  ghost predicate Takes(rows: Rows, a: AccountId, w: World, probe: Option<Geo>) {
    probe.Some? && w.compared && Free(rows, a, probe.value.ip) && !w.installed.Refused?
  }

  /** The session's exit is as it was: the check saw the address that the row names. */
  predicate IsHealthy(row: Row, w: World) {
    w.check.Some? && w.oldRead && row.ip == w.check
  }

  /** A pass over a row with a session. A healthy exit ends a recovery. A healthy fallback goes
      back to the preferred country exactly when that offers an exit that can be taken. An
      exit that is gone opens a recovery, and a new one is taken exactly when it can be and
      is in the preferred country, if there is one, unless the account is on fallback or has
      been recovering for five minutes, which puts it on fallback. */
  ghost predicate Kept(rows: Rows, after: Rows, a: AccountId, w: World)
    requires a in rows
  {
    var row := rows[a];
    match (IsHealthy(row, w), row.fallback)
    case (true, false) => after == if w.marked.Refused? then rows else rows[a := row.(rotation := None)]
    case (true, true) =>
      if Takes(rows, a, w, w.preferredProbe) && row.preferred != "" && SameCode(w.preferredProbe.value.code, row.preferred) then
        after == rows[a := Row(true, Some(w.preferredProbe.value.ip), w.preferredProbe.value.code, row.preferred, false, None)]
      else after == rows
    case (false, _) =>
      var mayFallBack := row.fallback || (row.rotation.Some? && w.now - row.rotation.value >= 300_000_000_000);
      if Takes(rows, a, w, w.probe) && (mayFallBack || row.preferred == "" || SameCode(w.probe.value.code, row.preferred)) then
        after == rows[a := Row(true, Some(w.probe.value.ip), w.probe.value.code, row.preferred, mayFallBack, None)]
      else if row.rotation.None? && !w.opening.Refused? then after == rows[a := row.(rotation := Some(w.now))]
      else after == rows
  }

  /** A pass over a row of a generic pool, which owns no session, no fallback and no recovery:
      it takes every probed exit that can be taken. */
  ghost predicate Observed(rows: Rows, after: Rows, a: AccountId, w: World)
    requires a in rows
  {
    match w.probe
    case None => after == rows
    case Some(geo) =>
      if Takes(rows, a, w, w.probe) then after == rows[a := Row(false, Some(geo.ip), geo.code, rows[a].preferred, false, None)]
      else after == rows
  }

  /** The row of an account with the session adapter before its session is checked: it has a
      session and prefers a country, the proxy's if it had none. */
  function WithSession(rows: Rows, a: AccountId, w: World): Row {
    if a in rows && rows[a].session && w.selected then rows[a]
    else if a in rows then rows[a].(session := true, preferred := if rows[a].preferred != "" then rows[a].preferred else w.hint)
    else Row(true, None, "", w.hint, false, None)
  }

  function Cleared(rows: Rows, a: AccountId): Row {
    if a in rows then rows[a].(session := false, fallback := false, rotation := None) else Row(false, None, "", "", false, None)
  }

  /** The rows once the flags of a generic pool are cleared, if the store takes that. */
  function Base(rows: Rows, a: AccountId, w: World): Rows {
    if w.genericRow && a in rows && !w.cleared.Refused? then rows[a := Cleared(rows, a)] else rows
  }

  /** The session of the account is known, or was stored just now. */
  predicate SessionKnown(rows: Rows, a: AccountId, w: World) {
    (a in rows && rows[a].session && w.selected) || w.configured.Acked?
  }

  /** A whole pass. It ends early when the flags could not be cleared, when the account uses no
      proxy and when it shares its exit; it goes on from a row with a session, or one of a
      generic pool, when that is stored and the proxy is usable. */
  ghost predicate Passed(rows: Rows, after: Rows, a: AccountId, w: World) {
    var base := Base(rows, a, w);
    if (w.genericRow && !w.cleared.Acked?) || !w.required || (w.linked && Shares(base, a, w.proxied)) then after == base
    else
      match w.adapter
      case Session =>
        var ready := base[a := WithSession(base, a, w)];
        if !SessionKnown(base, a, w) then after == if w.configured.Refused? then base else ready
        else if w.usable then Kept(ready, after, a, w)
        else after == ready
      case Generic =>
        var ready := base[a := Cleared(base, a)];
        if !w.configured.Acked? then after == if w.configured.Refused? then base else ready
        else if w.usable then Observed(ready, after, a, w)
        else after == ready
  }

  lemma FreeIsNoCollision(rows: Rows, a: AccountId, ip: Ip)
    ensures Free(rows, a, ip) <==> !Collides(rows, a, ip)
  {
  }

  lemma KeepKeeps(net: Net, a: AccountId, w: World)
    requires a in net.rows && net.rows[a].session && w.adapter.Session?
    ensures Kept(net.rows, Keep(net, a, w).rows, a, w)
  {
    if IsHealthy(net.rows[a], w) {
      if w.preferredProbe.Some? { FreeIsNoCollision(net.rows, a, w.preferredProbe.value.ip); }
    } else {
      RecoveryKeeps(net, a, w);
    }
  }

  lemma RecoveryKeeps(net: Net, a: AccountId, w: World)
    requires a in net.rows && net.rows[a].session && w.adapter.Session? && !IsHealthy(net.rows[a], w)
    ensures Kept(net.rows, Keep(net, a, w).rows, a, w)
  {
    var recovering := Open(net, a, w);
    if w.probe.Some? {
      FreeIsNoCollision(net.rows, a, w.probe.value.ip);
      SameOthers(net.rows, recovering.rows, a, w.probe.value.ip);
    }
  }

  /** Whether an exit is taken does not depend on the account's own row. */
  lemma SameOthers(rows: Rows, rows': Rows, a: AccountId, ip: Ip)
    requires rows'.Keys == rows.Keys && forall b :: b in rows && b != a ==> rows'[b] == rows[b]
    ensures Collides(rows', a, ip) <==> Collides(rows, a, ip)
  {
    if b :| b in rows && b != a && rows[b].ip.Some? && SubnetOf(rows[b].ip.value) == SubnetOf(ip) {
      assert b in rows' && rows'[b].ip.Some? && SubnetOf(rows'[b].ip.value) == SubnetOf(ip);
    }
    if b :| b in rows' && b != a && rows'[b].ip.Some? && SubnetOf(rows'[b].ip.value) == SubnetOf(ip) {
      assert b in rows && rows[b].ip.Some? && SubnetOf(rows[b].ip.value) == SubnetOf(ip);
    }
  }

  lemma ObserveObserves(net: Net, a: AccountId, w: World)
    requires a in net.rows && w.adapter.Generic? && Clear(net.rows[a]) == net.rows[a]
    ensures Observed(net.rows, ObserveGeneric(net, a, w).rows, a, w)
  {
    if w.probe.Some? { FreeIsNoCollision(net.rows, a, w.probe.value.ip); }
  }

  lemma MaintainPasses(net: Net, a: AccountId, w: World)
    ensures Passed(net.rows, Maintain(net, a, w).rows, a, w)
  {
    var cleared := if w.genericRow && a in net.rows then Put(net, a, Clear(net.rows[a]), Event.Cleared(a), w.cleared) else net;
    assert cleared.rows == Base(net.rows, a, w);
    var ready := if NeedsConfig(cleared, a, w) then Configure(cleared, a, w) else cleared;
    match w.adapter
    case Session => SessionReady(cleared, a, w);
    case Generic => GenericReady(cleared, a, w);
  }

  lemma SessionReady(net: Net, a: AccountId, w: World)
    requires w.adapter.Session?
    ensures var ready := if NeedsConfig(net, a, w) then Configure(net, a, w) else net;
      && (SessionKnown(net.rows, a, w) <==> !NeedsConfig(net, a, w) || w.configured.Acked?)
      && (!w.configured.Refused? || SessionKnown(net.rows, a, w) ==> ready.rows == net.rows[a := WithSession(net.rows, a, w)])
      && (SessionKnown(net.rows, a, w) ==> a in ready.rows && Kept(ready.rows, Keep(ready, a, w).rows, a, w))
  {
    var ready := if NeedsConfig(net, a, w) then Configure(net, a, w) else net;
    if SessionKnown(net.rows, a, w) {
      assert ready.rows == net.rows[a := WithSession(net.rows, a, w)];
      KeepKeeps(ready, a, w);
    }
  }

  lemma GenericReady(net: Net, a: AccountId, w: World)
    requires w.adapter.Generic?
    ensures var ready := Configure(net, a, w);
      && (!w.configured.Refused? ==> ready.rows == net.rows[a := Cleared(net.rows, a)])
      && (w.configured.Acked? ==> a in ready.rows && Observed(ready.rows, ObserveGeneric(ready, a, w).rows, a, w))
  {
    var ready := Configure(net, a, w);
    if !w.configured.Refused? {
      assert ready.rows == net.rows[a := Cleared(net.rows, a)];
      ObserveObserves(ready, a, w);
    }
  }

  /** After any history, a pass does exactly this to the rows. */
  lemma {:induction false} PassesExactly(ss: seq<Step>, a: AccountId, w: World)
    ensures Passed(After(ss).net.rows, After(ss + [Pass(a, w)]).net.rows, a, w)
  {
    assert (ss + [Pass(a, w)])[..|ss|] == ss;
    MaintainPasses(After(ss).net, a, w);
  }
}
