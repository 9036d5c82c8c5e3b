// What a renewal, a request and a sign-out come to, told from the tab and the vault
// alone (portal/auth.js).
module SessionAnswers {
  import opened Options
  import opened Session
  import opened SessionWorld
  import opened SessionSafety

  // Every entry sits under its own user.
  predicate Sorted(vault: Vault) {
    forall u | u in vault :: vault[u].user == u
  }

  // The pair the tab's account is on: the vault's, or else the one the tab holds.
  function Newest(l: Local): Option<Pair> {
    if l.tab.held.None? then None
    else if l.tab.held.value.user in l.vault then Some(l.vault[l.tab.held.value.user])
    else l.tab.held
  }

  // The vault holds another pair for the tab's account, and its access token is good.
  predicate NewerIsGood(l: Local, now: nat) {
    Newest(l) != l.tab.held && now < Newest(l).value.expires
  }

  // ---------- A renewal ----------

  // A renewal moves the tab to its account's newest pair and leaves the vault alone. It
  // resolves at once exactly when that pair is new to the tab and good, is rejected
  // exactly when the tab has neither a pair nor a renewal in flight, and otherwise joins
  // the one in flight or posts the newest pair.
  lemma RenewalAnswers(l: Local, now: nat)
    requires Sorted(l.vault)
    ensures var (l', o) := RefreshAccess(l, now);
            && l'.vault == l.vault && l'.tab.held == Newest(l) && l'.tab.inFlight == l.tab.inFlight
            && (Newest(l) == l.tab.held ==> l' == l)
            && (o.Resolved? <==> NewerIsGood(l, now))
            && (o.Rejected? <==> l.tab.held.None? && l.tab.inFlight.None?)
            && (o.Joined? <==> !NewerIsGood(l, now) && l.tab.inFlight.Some?)
            && (o.Posts? ==> Newest(l) == Some(o.token) && (o.remembered <==> o.token.user in l.vault))
  {
    AdoptingKeeps(l);
  }

  // Adopting an entry writes it back where it was.
  lemma AdoptingKeeps(l: Local)
    requires Sorted(l.vault)
    ensures Reconcile(l).vault == l.vault && Reconcile(l).tab.held == Newest(l)
    ensures Unseen(Reconcile(l)).None?
  {
  }

  // A granted renewal puts the new pair into the tab, and into the vault when the account
  // was remembered as the request left or is there now.
  lemma GrantAnswers(l: Local, token: Pair, remembered: bool, pair: Pair, now: nat)
    ensures var (l', o) := OnReply(l, token, remembered, Granted(pair), now);
            && o.Resolved? && l'.tab == Tab(Some(pair), None, false, false)
            && (forall u :: u in l'.vault <==> u in l.vault || (remembered && u == pair.user))
            && (forall u | u in l'.vault :: l'.vault[u] == if u == pair.user then pair else l.vault[u])
  {
  }

  // A failed renewal of `token` is rejected exactly when tab and vault have nothing but
  // that token for the account. It resolves exactly when the tab was given another good
  // pair meanwhile or the vault has one, and otherwise posts the newest pair.
  lemma FailureAnswers(l: Local, token: Pair, remembered: bool, reply: Reply, now: nat)
    requires Sorted(l.vault) && !reply.Granted?
    ensures var (l', o) := OnReply(l, token, remembered, reply, now);
            var moved := l.tab.held.Some? && l.tab.held.value != token;
            var stays := moved && now < l.tab.held.value.expires;
            && l'.tab.inFlight.None? && l'.tab.held == (if stays then l.tab.held else Newest(l))
            && (o.Rejected? <==> !moved && Newest(l) == l.tab.held)
            && (o.Resolved? <==> stays || NewerIsGood(l, now))
            && !o.Joined?
            && (o.Posts? ==> Newest(l) == Some(o.token) && (o.remembered <==> o.token.user in l.vault))
  {
    hide RefreshAccess, Reconcile;
    var l0 := l.(tab := l.tab.(inFlight := None));
    AdoptingKeeps(l0);
    RenewalAnswers(l0, now);
    RenewalAnswers(Reconcile(l0), now);
    ReconcileMoves(l0);
  }

  // Such a failure leaves the vault alone, except that a refusal of the token that both
  // tab and vault still hold takes it out.
  lemma FailureForgets(l: Local, token: Pair, remembered: bool, reply: Reply, now: nat)
    requires Sorted(l.vault) && !reply.Granted?
    ensures var vault := OnReply(l, token, remembered, reply, now).0.vault;
            && (forall u :: u in vault <==>
                  u in l.vault &&
                  !(reply.Refused? && l.tab.held == Some(token) && u == token.user && l.vault[u] == token))
            && (forall u | u in vault :: vault[u] == l.vault[u])
  {
    hide RefreshAccess, Reconcile;
    var l0 := l.(tab := l.tab.(inFlight := None));
    AdoptingKeeps(l0);
    RenewalAnswers(l0, now);
    RenewalAnswers(Reconcile(l0), now);
    ReconcileMoves(l0);
  }

  // ---------- A request ----------

  // What a call comes to when whatever it waits for is decided on the spot.
  function OnTheSpot(l: Local, call: ApiCall): (Local, ApiCall) {
    if call.Renewing? && (call.outcome.Resolved? || call.outcome.Rejected?) then ApiSettled(l, call, false)
    else (l, call)
  }

  // A request refused for the first time goes out again at once, with the pair the tab
  // then holds, exactly when the tab already holds another than it was sent with or the
  // vault has a newer good one; it is given up exactly when the tab has no pair and no
  // renewal in flight; and otherwise it waits for one.
  lemma RefusedRequest(l: Local, sent: Option<Pair>, now: nat, request: nat)
    requires Sorted(l.vault)
    ensures var (l1, c1) := ApiAnswered(l, Waiting(sent, false), true, now, request);
            var (l2, c2) := OnTheSpot(l1, c1);
            var moved := sent.Some? && l.tab.held.Some? && l.tab.held != sent;
            && l2.vault == l.vault && l2.tab.held == (if moved then l.tab.held else Newest(l))
            && (c2.Waiting? <==> moved || NewerIsGood(l, now))
            && (c2.Waiting? ==> c2 == Waiting(l2.tab.held, true))
            && (c2.Over? <==> l.tab.held.None? && l.tab.inFlight.None?)
            && (c2.Over? ==> c2 == Over(false) && l2.tab.announced)
            && (c2.Renewing? ==> l2.tab.inFlight == if l.tab.inFlight.Some? then l.tab.inFlight else Some(request))
  {
    hide RefreshAccess;
    RenewalAnswers(l, now);
  }

  // A renewal it waited for lets it go out again exactly when it succeeded.
  lemma WaitedForRenewal(l: Local, o: Outcome, renewed: bool)
    requires o.Joined? || o.Posts?
    ensures var (l', c) := ApiSettled(l, Renewing(o), renewed);
            && (renewed ==> l' == l && c == Waiting(l.tab.held, true))
            && (!renewed ==> c == Over(false) && l'.tab.announced && l'.tab.held == l.tab.held && l'.vault == l.vault)
  {
  }

  // A call ends well exactly on an answer that is no 401, and badly exactly on a second
  // 401 or a renewal that did not succeed; the loss is then announced, once.
  lemma CallEnds(call: ApiCall, m: Moment)
    requires !call.Over?
    ensures var (l, c) := ApiStep(call, m);
            && (c == Over(true) <==> call.Waiting? && m.e == Answered(false))
            && (c == Over(false) <==>
                  || (call.Waiting? && m.e == Answered(true) && call.retried)
                  || (call.Renewing? && m.e.RenewalSettles? &&
                      (call.outcome.Rejected? || (!call.outcome.Resolved? && !m.e.renewed))))
            && (c == Over(true) ==> l == m.before)
            && (c == Over(false) ==>
                  l.tab == if m.before.tab.announced then m.before.tab
                           else m.before.tab.(lost := true, announced := true))
  {
    hide RefreshAccess;
  }

  // It goes out a second time exactly when a first 401 finds another pair in the tab than
  // it carried, or the renewal it waits for succeeds.
  lemma ResendsIff(call: ApiCall, m: Moment)
    requires !call.Over?
    ensures Resends(call, m) <==>
              || (call.Waiting? && m.e == Answered(true) && !call.retried &&
                  call.sent.Some? && m.before.tab.held.Some? && call.sent != m.before.tab.held)
              || (call.Renewing? && m.e.RenewalSettles? &&
                  (call.outcome.Resolved? || (!call.outcome.Rejected? && m.e.renewed)))
  {
    hide RefreshAccess;
  }

  // A tab that was thrown out of its session does not sign itself back in.
  lemma ThrownOutStaysOut(l: Local)
    requires !l.tab.announced
    ensures Bootstrap(Announced(l)) == Announced(l)
  {
  }

  // ---------- Signing out ----------

  // The tab holds nothing, its account is out of the vault, and all others are as before.
  lemma SignOutForgets(l: Local)
    ensures var l' := Logout(l);
            && l'.tab == l.tab.(held := None)
            && (l.tab.held.Some? ==> l.tab.held.value.user !in l'.vault)
            && (forall u :: CurrentUser(l.tab) != Some(u) ==> (u in l'.vault <==> u in l.vault))
            && (forall u | u in l'.vault :: l'.vault[u] == l.vault[u])
  {
  }

  // A tab with no pair that was not thrown out of a session takes up the remembered
  // account exactly when there is one and no other.
  lemma BootstrapAdopts(l: Local)
    requires Sorted(l.vault)
    ensures var l' := Bootstrap(l);
            && l'.vault == l.vault
            && (l'.tab != l.tab ==> l.tab.held.None? && !l.tab.lost)
            && (l'.tab != l.tab ==> l'.tab == Tab(l'.tab.held, l.tab.inFlight, false, false))
            && (l.tab.held.None? && !l.tab.lost ==>
                  (l'.tab.held.Some? <==> |l.vault| == 1) &&
                  (l'.tab.held.Some? ==>
                     var pair := l'.tab.held.value;
                     pair.user in l.vault && l.vault[pair.user] == pair))
  {
    if |l.vault| == 1 {
      var uid :| uid in l.vault;
      OnlyEntry(l.vault, uid);
    }
    forall uid | l.vault.Keys == {uid} ensures |l.vault| == 1 {
    }
  }

  // Forgetting a listed account takes out its entry and touches no tab.
  lemma ForgettingRemoves(w: World, u: UserId)
    ensures var w' := Step(w, ForgetEntry(u));
            && (forall v :: v in w'.vault <==> v in w.vault && v != u)
            && (forall v | v in w'.vault :: w'.vault[v] == w.vault[v])
            && w'.tabs == w.tabs && w'.posts == w.posts && w'.live == w.live
  {
    hide RefreshAccess, OnReply, Bootstrap;
  }

  // A session that merely ended leaves its account in the vault: the tab alone drops its
  // pair, or is marked as thrown out.
  lemma EndingKeepsVault(w: World, t: TabId)
    requires t in w.tabs
    ensures Step(w, DropTab(t)) == w.(tabs := w.tabs[t := w.tabs[t].(held := None)])
    ensures Step(w, Announce(t)) == w.(tabs := w.tabs[t := w.tabs[t].(lost := true, announced := true)])
  {
    hide RefreshAccess, OnReply, Bootstrap;
  }

  // ---------- An account that was signed out ----------

  // The step brings account u into the vault: a sign-in that asked to be remembered
  // arrives, or a granted renewal that recorded the account as remembered.
  predicate Remembers(w: World, a: Action, u: UserId) {
    Enabled(w, a) &&
    match a
    case LoginArrives(n) => w.signIns[n].remember && w.signIns[n].pair.user == u
    case ReplyArrives(n, _) =>
      IsGranted(w.posts[n]) && w.posts[n].remembered && w.posts[n].reply.value.pair.user == u
    case _ => false
  }

  lemma EntersIff(w: World, a: Action, u: UserId)
    requires Inv(w) && u !in w.vault
    ensures u in Step(w, a).vault <==> Remembers(w, a, u)
  {
    hide RefreshAccess, OnReply, Bootstrap, PendingFresh, AnsweredSpent, OneRequestPerTab;
    if Enabled(w, a) {
      match a
      case Renew(t, now) => RenewalAnswers(w.Of(t), now);
      case Boot(t) => BootstrapAdopts(w.Of(t));
      case ReplyArrives(n, now) =>
        var p := w.posts[n];
        if IsGranted(p) {
          GrantAnswers(w.Of(p.tab), p.token, p.remembered, p.reply.value.pair, now);
        } else {
          FailureForgets(w.Of(p.tab), p.token, p.remembered, p.reply.value, now);
        }
      case _ =>
    }
  }

  predicate OutAt(w: World, acts: seq<Action>, k: nat, u: UserId)
    requires k <= |acts|
  {
    u !in After(w, acts, k).vault
  }

  predicate RememberedAt(w: World, acts: seq<Action>, k: nat, u: UserId)
    requires k < |acts|
  {
    Remembers(After(w, acts, k), acts[k], u)
  }

  // An account that is not in the vault stays out of it exactly as long as no step
  // brings it in.
  lemma {:induction false} StaysOutIff(w: World, acts: seq<Action>, i: nat, j: nat, u: UserId)
    requires i <= j <= |acts| && Inv(w) && OutAt(w, acts, i, u)
    ensures (forall k | i <= k <= j :: OutAt(w, acts, k, u)) <==>
            (forall k | i <= k < j :: !RememberedAt(w, acts, k, u))
  {
    hide Step, Inv, Remembers;
    if i < j {
      StaysOutIff(w, acts, i, j - 1, u);
      InvOverRuns(w, acts, j - 1);
      if OutAt(w, acts, j - 1, u) {
        EntersIff(After(w, acts, j - 1), acts[j - 1], u);
        assert OutAt(w, acts, j, u) <==> !RememberedAt(w, acts, j - 1, u);
      }
    }
  }

  // Signing out in tab t takes its account out of the vault, and it stays out until
  // somebody asks for it to be remembered or an answer to a renewal that found it there
  // arrives.
  lemma SignedOutStaysOut(w: World, acts: seq<Action>, i: nat, j: nat, t: TabId, u: UserId)
    requires i < j <= |acts| && Inv(w) && acts[i] == SignOut(t)
    requires t in After(w, acts, i).tabs && CurrentUser(After(w, acts, i).tabs[t]) == Some(u)
    requires forall k | i < k < j :: !RememberedAt(w, acts, k, u)
    ensures After(w, acts, i + 1).tabs[t].held.None?
    ensures forall k | i < k <= j :: OutAt(w, acts, k, u)
  {
    hide Inv, Remembers, Logout;
    SignOutForgets(After(w, acts, i).Of(t));
    assert After(w, acts, i + 1) == Step(After(w, acts, i), SignOut(t));
    assert OutAt(w, acts, i + 1, u);
    StaysOutIff(w, acts, i + 1, j, u);
  }
}
