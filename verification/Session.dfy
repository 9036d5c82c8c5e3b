// One browser tab of the portal (portal/auth.js): the token pair it holds, the
// account vault it shares with the other tabs, and the renewal it may have in
// flight. Every synchronous stretch of the module - the code between two
// network events - is a function from the tab and the vault to the new ones,
// and a method of class TabSession that carries it out in place.
module Session {
  import opened Options

  type UserId = nat

  // An access and a refresh token issued together for one user. A pair is named
  // after the request that obtained it; `expires` is when its access token does.
  datatype Pair = Pair(id: nat, user: UserId, expires: nat)

  type Vault = map<UserId, Pair>

  // What sessionStorage and the module variables of one tab hold.
  datatype Tab = Tab(held: Option<Pair>, inFlight: Option<nat>, lost: bool, announced: bool)

  datatype Local = Local(tab: Tab, vault: Vault)

  // The answer to a renewal request.
  datatype Reply = Granted(pair: Pair) | Refused | Failed

  // What a call of refreshAccess comes to in its synchronous part.
  datatype Outcome =
    | Resolved
    | Rejected
    | Joined
    | Posts(token: Pair, remembered: bool)

  predicate Usable(held: Option<Pair>, now: nat) {
    held.Some? && now < held.value.expires
  }

  function CurrentUser(t: Tab): Option<UserId> {
    if t.held.Some? then Some(t.held.value.user) else None
  }

  // The vault is written when the visitor asked to be remembered and refreshed
  // when an entry exists; an entry is never created otherwise.
  function Adopt(l: Local, pair: Pair, remember: bool): Local {
    Local(l.tab.(held := Some(pair), lost := false, announced := false),
          if remember || pair.user in l.vault then l.vault[pair.user := pair] else l.vault)
  }

  // The vault's pair for this tab's account, when it is one the tab has not seen.
  function Unseen(l: Local): Option<Pair> {
    match CurrentUser(l.tab)
    case None => None
    case Some(uid) =>
      if uid in l.vault && l.vault[uid] != l.tab.held.value then Some(l.vault[uid]) else None
  }

  function Reconcile(l: Local): Local {
    match Unseen(l)
    case None => l
    case Some(pair) => Adopt(l, pair, false)
  }

  function Forget(vault: Vault, uid: UserId): Vault { vault - {uid} }

  // The refused token leaves the vault only if it is still what the vault holds.
  function ForgetRefused(l: Local, token: Pair): Local {
    match CurrentUser(l.tab)
    case None => l
    case Some(uid) =>
      if uid in l.vault && l.vault[uid] == token then l.(vault := Forget(l.vault, uid)) else l
  }

  function RefreshAccess(l: Local, now: nat): (Local, Outcome) {
    var l' := Reconcile(l);
    if Unseen(l).Some? && Usable(l'.tab.held, now) then (l', Resolved)
    else if l'.tab.inFlight.Some? then (l', Joined)
    else if l'.tab.held.None? then (l', Rejected)
    else (l', Posts(l'.tab.held.value, l'.tab.held.value.user in l'.vault))
  }

  // The two continuations of a renewal request that posted `token`.
  function OnReply(l: Local, token: Pair, remembered: bool, reply: Reply, now: nat): (Local, Outcome) {
    var l0 := l.(tab := l.tab.(inFlight := None));
    if reply.Granted? then (Adopt(l0, reply.pair, remembered), Resolved)
    else if l0.tab.held.Some? && l0.tab.held.value != token then
      if Usable(l0.tab.held, now) then (l0, Resolved) else RefreshAccess(l0, now)
    else
      var l1 := Reconcile(l0);
      if Unseen(l0).Some? then
        if Usable(l1.tab.held, now) then (l1, Resolved) else RefreshAccess(l1, now)
      else (if reply.Refused? then ForgetRefused(l1, token) else l1, Rejected)
  }

  function Logout(l: Local): Local {
    var l' := l.(tab := l.tab.(held := None));
    match CurrentUser(l.tab)
    case None => l'
    case Some(uid) => l'.(vault := Forget(l.vault, uid))
  }

  function Drop(l: Local): Local { l.(tab := l.tab.(held := None)) }

  // A tab without a pair adopts the only remembered account, unless it was just
  // thrown out of a session.
  function Bootstrap(l: Local): Local {
    if l.tab.held.Some? || l.tab.lost then l
    else if exists uid :: uid in l.vault && l.vault.Keys == {uid} then
      var uid :| uid in l.vault && l.vault.Keys == {uid};
      Adopt(l, l.vault[uid], false)
    else l
  }

  // ---------- One api call ----------

  // A request on its way with the pair it carries, a call that waits for a renewal, or
  // one that is over.
  datatype ApiCall = Waiting(sent: Option<Pair>, retried: bool) | Renewing(outcome: Outcome) | Over(ok: bool)

  datatype ApiEvent = Answered(refused: bool) | RenewalSettles(renewed: bool)

  function Announced(l: Local): Local {
    if l.tab.announced then l else l.(tab := l.tab.(lost := true, announced := true))
  }

  // `refused` is a 401. A renewal that posts is numbered `request`.
  function ApiAnswered(l: Local, call: ApiCall, refused: bool, now: nat, request: nat): (Local, ApiCall)
    requires call.Waiting?
  {
    if !refused then (l, Over(true))
    else if call.retried then (Announced(l), Over(false))
    else if call.sent.Some? && l.tab.held.Some? && l.tab.held != call.sent then (l, Waiting(l.tab.held, true))
    else
      var (l', o) := RefreshAccess(l, now);
      (if o.Posts? then l'.(tab := l'.tab.(inFlight := Some(request))) else l', Renewing(o))
  }

  // The promise of the renewal settles; one decided on the spot is settled already.
  function ApiSettled(l: Local, call: ApiCall, renewed: bool): (Local, ApiCall)
    requires call.Renewing?
  {
    if call.outcome.Resolved? || (!call.outcome.Rejected? && renewed) then (l, Waiting(l.tab.held, true))
    else (Announced(l), Over(false))
  }

  // ---------- The module itself ----------

  // localStorage: one table shared by every tab.
  class Storage {
    var table: Vault

    constructor ()
      ensures table == map[]
    {
      table := map[];
    }

    method ForgetAccount(uid: UserId)
      modifies this
      ensures table == Forget(old(table), uid)
    {
      if uid in table {
        table := table - {uid};
      }
    }
  }

  class TabSession {
    const storage: Storage
    var held: Option<Pair>
    var inFlight: Option<nat>
    var lost: bool
    var announced: bool

    constructor (storage: Storage)
      ensures this.storage == storage && View() == Local(Tab(None, None, false, false), storage.table)
    {
      this.storage := storage;
      held, inFlight, lost, announced := None, None, false, false;
    }

    function View(): Local
      reads this, storage
    {
      Local(Tab(held, inFlight, lost, announced), storage.table)
    }

    method AdoptPair(pair: Pair, remember: bool)
      modifies this, storage
      ensures View() == Adopt(old(View()), pair, remember)
    {
      held := Some(pair);
      announced := false;
      lost := false;
      var known := pair.user in storage.table;
      if remember || known {
        storage.table := storage.table[pair.user := pair];
      }
    }

    method ReconcileFromTable() returns (adopted: bool)
      modifies this, storage
      ensures View() == Reconcile(old(View())) && adopted == Unseen(old(View())).Some?
    {
      if held.None? || held.value.user !in storage.table {
        return false;
      }
      var entry := storage.table[held.value.user];
      if entry == held.value {
        return false;
      }
      AdoptPair(entry, false);
      adopted := true;
    }

    // `request` numbers the POST this call sends if it sends one.
    method Refresh(now: nat, request: nat) returns (o: Outcome)
      modifies this, storage
      ensures var (l, out) := RefreshAccess(old(View()), now);
              o == out && View() == if o.Posts? then l.(tab := l.tab.(inFlight := Some(request))) else l
    {
      var adopted := ReconcileFromTable();
      if adopted && Usable(held, now) {
        return Resolved;
      }
      if inFlight.Some? {
        return Joined;
      }
      if held.None? {
        return Rejected;
      }
      var remembered := held.value.user in storage.table;
      inFlight := Some(request);
      o := Posts(held.value, remembered);
    }

    method ForgetRefusedToken(token: Pair)
      modifies storage
      ensures View() == ForgetRefused(old(View()), token)
    {
      if held.Some? && held.value.user in storage.table && storage.table[held.value.user] == token {
        storage.ForgetAccount(held.value.user);
      }
    }

    // Handles the answer to the POST that carried `token`. A repeated renewal is
    // numbered `request`.
    method HandleReply(token: Pair, remembered: bool, reply: Reply, now: nat, request: nat) returns (o: Outcome)
      modifies this, storage
      ensures var (l, out) := OnReply(old(View()), token, remembered, reply, now);
              o == out && View() == if o.Posts? then l.(tab := l.tab.(inFlight := Some(request))) else l
    {
      inFlight := None;
      if reply.Granted? {
        AdoptPair(reply.pair, remembered);
        return Resolved;
      }
      if held.Some? && held.value != token {
        if Usable(held, now) {
          return Resolved;
        }
        o := Refresh(now, request);
        return;
      }
      var late := ReconcileFromTable();
      if late && Usable(held, now) {
        return Resolved;
      }
      if late {
        o := Refresh(now, request);
        return;
      }
      if reply.Refused? {
        ForgetRefusedToken(token);
      }
      o := Rejected;
    }

    method SignOut()
      modifies this, storage
      ensures View() == Logout(old(View()))
    {
      var uid := CurrentUser(View().tab);
      held := None;
      if uid.Some? {
        storage.ForgetAccount(uid.value);
      }
    }

    method BootstrapTab()
      modifies this, storage
      ensures View() == Bootstrap(old(View()))
    {
      if held.Some? || lost || |storage.table| != 1 {
        assert forall uid | storage.table.Keys == {uid} :: |storage.table| == 1;
        return;
      }
      var uid :| uid in storage.table;
      OnlyEntry(storage.table, uid);
      AdoptPair(storage.table[uid], false);
    }

    method AnnounceSessionLost()
      modifies this
      ensures View() == Announced(old(View()))
    {
      if announced {
        return;
      }
      announced := true;
      lost := true;
    }

    // The answer to a request: done, sent again with what the tab now holds, given up,
    // or put off until a renewal settles.
    method HandleAnswer(call: ApiCall, refused: bool, now: nat, request: nat) returns (call': ApiCall)
      requires call.Waiting?
      modifies this, storage
      ensures (View(), call') == ApiAnswered(old(View()), call, refused, now, request)
    {
      if !refused {
        return Over(true);
      }
      if call.retried {
        AnnounceSessionLost();
        return Over(false);
      }
      if call.sent.Some? && held.Some? && held != call.sent {
        return Waiting(held, true);
      }
      var o := Refresh(now, request);
      call' := Renewing(o);
    }

    method HandleSettled(call: ApiCall, renewed: bool) returns (call': ApiCall)
      requires call.Renewing?
      modifies this
      ensures (View(), call') == ApiSettled(old(View()), call, renewed)
    {
      if call.outcome.Resolved? || (!call.outcome.Rejected? && renewed) {
        return Waiting(held, true);
      }
      AnnounceSessionLost();
      call' := Over(false);
    }
  }

  // ---------- How often a call sends ----------

  // What the call meets, in a tab that others may have changed in any way meanwhile.
  datatype Moment = Moment(before: Local, e: ApiEvent, now: nat, request: nat)

  // An event of the other kind finds the call not waiting for it.
  function ApiStep(call: ApiCall, m: Moment): (Local, ApiCall) {
    if call.Waiting? && m.e.Answered? then ApiAnswered(m.before, call, m.e.refused, m.now, m.request)
    else if call.Renewing? && m.e.RenewalSettles? then ApiSettled(m.before, call, m.e.renewed)
    else (m.before, call)
  }

  function ApiAfter(held: Option<Pair>, ms: seq<Moment>, n: nat): ApiCall
    requires n <= |ms|
  {
    if n == 0 then Waiting(held, false) else ApiStep(ApiAfter(held, ms, n - 1), ms[n - 1]).1
  }

  // The request goes out when the call starts and whenever it waits anew.
  predicate Resends(call: ApiCall, m: Moment) {
    ApiStep(call, m).1.Waiting? && ApiStep(call, m).1 != call
  }

  function Sends(held: Option<Pair>, ms: seq<Moment>, n: nat): nat
    requires n <= |ms|
  {
    if n == 0 then 1 else Sends(held, ms, n - 1) + (if Resends(ApiAfter(held, ms, n - 1), ms[n - 1]) then 1 else 0)
  }

  // A request goes out at most twice, whatever the tab goes through meanwhile: a call
  // that is not a retry has sent once.
  lemma {:induction false} SendsAtMostTwice(held: Option<Pair>, ms: seq<Moment>, n: nat)
    requires n <= |ms|
    ensures Sends(held, ms, n) <= 2
    ensures var call := ApiAfter(held, ms, n);
            && (call.Waiting? ==> Sends(held, ms, n) == if call.retried then 2 else 1)
            && (call.Renewing? ==> Sends(held, ms, n) == 1)
  {
    hide RefreshAccess;
    if n > 0 {
      SendsAtMostTwice(held, ms, n - 1);
    }
  }

  // It goes out again only after a 401, with a newer pair than it carried or after a
  // renewal; and a call that fails on a 401 has announced the lost session.
  lemma SecondSendHasReason(call: ApiCall, m: Moment)
    ensures Resends(call, m) ==>
              var sent := ApiStep(call, m).1.sent;
              sent == m.before.tab.held &&
              if call.Waiting? then m.e == Answered(true) && sent.Some? && sent != call.sent
              else call.Renewing? && !call.outcome.Rejected? && (call.outcome.Resolved? || m.e == RenewalSettles(true))
    ensures !call.Over? && ApiStep(call, m).1 == Over(false) ==> ApiStep(call, m).0.tab.announced
  {
    hide RefreshAccess;
  }

  lemma OnlyEntry(vault: Vault, uid: UserId)
    requires |vault| == 1 && uid in vault
    ensures vault.Keys == {uid}
  {
    assert |vault.Keys - {uid}| == 0;
  }
}
