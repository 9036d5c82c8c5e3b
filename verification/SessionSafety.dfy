// What the renewal protocol keeps in every reachable state: the vault never
// holds a dead token, no token is exchanged twice, each tab has at most one
// request outstanding, and a renewal stays with its account.
module SessionSafety {
  import opened Options
  import opened Session
  import opened SessionWorld

  // ---------- What a tab may do to the pairs ----------

  predicate InVault(v: Vault, p: Pair) { p.user in v && v[p.user] == p }

  // From l to l' every pair stays where it was, is copied between the vault and
  // the tab, is dropped, or is one of the pairs just delivered.
  predicate Moves(l: Local, l': Local, delivered: set<Pair>) {
    && (l'.tab.held.Some? ==>
          l'.tab.held == l.tab.held || InVault(l.vault, l'.tab.held.value) || l'.tab.held.value in delivered)
    && (forall u | u in l'.vault ::
          (u in l.vault && l'.vault[u] == l.vault[u]) || (l'.vault[u] in delivered && l'.vault[u].user == u))
  }

  lemma ReconcileMoves(l: Local)
    requires forall u | u in l.vault :: l.vault[u].user == u
    ensures Moves(l, Reconcile(l), {}) && Reconcile(l).tab.inFlight == l.tab.inFlight
    ensures Reconcile(l).vault == l.vault
    ensures CurrentUser(Reconcile(l).tab) == CurrentUser(l.tab)
    ensures Unseen(Reconcile(l)).None?
  {
  }

  // What refreshAccess decides, and what is true at the moment it posts: the tab
  // holds the posted token and the vault holds it too or not that account at all.
  lemma RefreshMoves(l: Local, now: nat)
    requires forall u | u in l.vault :: l.vault[u].user == u
    ensures var (l', o) := RefreshAccess(l, now);
            && Moves(l, l', {}) && l'.tab.inFlight == l.tab.inFlight && l'.vault == l.vault
            && CurrentUser(l'.tab) == CurrentUser(l.tab)
            && (o.Posts? ==>
                  && l.tab.inFlight.None? && l'.tab.held == Some(o.token)
                  && o.remembered == (o.token.user in l'.vault)
                  && (o.token.user in l'.vault ==> l'.vault[o.token.user] == o.token))
  {
    ReconcileMoves(l);
  }

  lemma FailureMoves(l: Local, token: Pair, remembered: bool, reply: Reply, now: nat)
    requires forall u | u in l.vault :: l.vault[u].user == u
    requires l.tab.inFlight.None? && !reply.Granted?
    ensures var (l', o) := OnReply(l, token, remembered, reply, now);
            && Moves(l, l', {}) && l'.tab.inFlight.None?
            && CurrentUser(l'.tab) == CurrentUser(l.tab)
            && (o.Posts? ==>
                  && l'.tab.held == Some(o.token)
                  && o.remembered == (o.token.user in l'.vault)
                  && (o.token.user in l'.vault ==> l'.vault[o.token.user] == o.token))
            && (forall u | u in l.vault && u !in l'.vault :: reply.Refused? && l.vault[u] == token)
  {
    hide RefreshAccess, Reconcile;
    var l1 := Reconcile(l);
    ReconcileMoves(l);
    RefreshMoves(l, now);
    RefreshMoves(l1, now);
  }

  // ---------- Preservation, one kind of step at a time ----------

  lemma MovePreserves(w: World, t: TabId, l': Local)
    requires Inv(w) && t in w.tabs
    requires Moves(w.Of(t), l', {}) && l'.tab.inFlight == w.tabs[t].inFlight
    ensures Inv(w.With(t, l'))
  {
  }

  lemma SendPreserves(w: World, t: TabId, o: Outcome)
    requires Inv(w) && t in w.tabs && (o.Posts? ==> w.tabs[t].inFlight.None?)
    requires o.Posts? ==> w.tabs[t].held == Some(o.token) && o.remembered == (o.token.user in w.vault)
    ensures Inv(Send(w, t, o))
  {
    hide Settled, PendingFresh, AnsweredSpent, OneRequestPerTab;
    SendSettles(w, t, o);
    SendOpensOne(w, t, o);
  }

  lemma SendSettles(w: World, t: TabId, o: Outcome)
    requires Inv(w) && t in w.tabs
    requires o.Posts? ==> w.tabs[t].held == Some(o.token) && o.remembered == (o.token.user in w.vault)
    ensures var w' := Send(w, t, o);
            Settled(w') && PendingFresh(w') && AnsweredSpent(w')
  {
    hide Settled, PendingFresh, AnsweredSpent, OneRequestPerTab, Send;
    SendKeepsSettled(w, t, o);
    SendKeepsPending(w, t, o);
  }

  lemma SendKeepsSettled(w: World, t: TabId, o: Outcome)
    requires Inv(w) && t in w.tabs
    requires o.Posts? ==> w.tabs[t].held == Some(o.token) && o.remembered == (o.token.user in w.vault)
    ensures Settled(Send(w, t, o))
  {
    hide AnsweredSpent, OneRequestPerTab;
  }

  lemma SendKeepsPending(w: World, t: TabId, o: Outcome)
    requires Inv(w) && t in w.tabs
    requires o.Posts? ==> w.tabs[t].held == Some(o.token) && o.remembered == (o.token.user in w.vault)
    ensures PendingFresh(Send(w, t, o)) && AnsweredSpent(Send(w, t, o))
  {
    hide Settled, OneRequestPerTab;
  }

  lemma SendOpensOne(w: World, t: TabId, o: Outcome)
    requires Inv(w) && t in w.tabs && (o.Posts? ==> w.tabs[t].inFlight.None?)
    ensures OneRequestPerTab(Send(w, t, o))
  {
    hide Settled, AnsweredSpent;
  }

  lemma ServePreserves(w: World, n: nat, expires: nat, handling: Handling)
    requires Inv(w) && Enabled(w, Serve(n, expires, handling))
    ensures Inv(ServeRenewal(w, n, expires, handling))
  {
    hide Settled, PendingFresh, AnsweredSpent, OneRequestPerTab, ServeRenewal;
    ServeSettles(w, n, expires, handling);
    ServeSpends(w, n, expires, handling);
  }

  lemma ServeSettles(w: World, n: nat, expires: nat, handling: Handling)
    requires Inv(w) && Enabled(w, Serve(n, expires, handling))
    ensures Settled(ServeRenewal(w, n, expires, handling)) && OneRequestPerTab(ServeRenewal(w, n, expires, handling))
  {
    hide PendingFresh, AnsweredSpent;
  }

  lemma ServeSpends(w: World, n: nat, expires: nat, handling: Handling)
    requires Inv(w) && Enabled(w, Serve(n, expires, handling))
    ensures PendingFresh(ServeRenewal(w, n, expires, handling)) && AnsweredSpent(ServeRenewal(w, n, expires, handling))
  {
    hide Settled, PendingFresh, AnsweredSpent, OneRequestPerTab, ServeRenewal;
    ServeStaysFresh(w, n, expires, handling);
    ServeAnswersApart(w, n, expires, handling);
  }

  lemma ServeStaysFresh(w: World, n: nat, expires: nat, handling: Handling)
    requires Inv(w) && Enabled(w, Serve(n, expires, handling))
    ensures PendingFresh(ServeRenewal(w, n, expires, handling))
  {
    hide AnsweredSpent, OneRequestPerTab;
  }

  lemma ServeAnswersApart(w: World, n: nat, expires: nat, handling: Handling)
    requires Inv(w) && Enabled(w, Serve(n, expires, handling))
    ensures AnsweredSpent(ServeRenewal(w, n, expires, handling))
  {
    hide OneRequestPerTab;
  }

  lemma LoginArrivesPreserves(w: World, n: nat)
    requires Inv(w) && Enabled(w, LoginArrives(n))
    ensures Inv(DeliverLogin(w, n))
  {
  }

  // The request n is over, without a new pair.
  function Closed(w: World, n: nat): World
    requires n in w.posts && w.posts[n].tab in w.tabs
  {
    var t := w.posts[n].tab;
    w.(tabs := w.tabs[t := w.tabs[t].(inFlight := None)], posts := w.posts - {n})
  }

  lemma ClosePreserves(w: World, n: nat)
    requires Inv(w) && Enabled(w, ReplyArrives(n, 0)) && !IsGranted(w.posts[n])
    ensures Inv(Closed(w, n))
  {
  }

  lemma FailurePreserves(w: World, n: nat, now: nat)
    requires Inv(w) && Enabled(w, ReplyArrives(n, now)) && !IsGranted(w.posts[n])
    ensures Inv(DeliverReply(w, n, now))
  {
    hide Inv, OnReply;
    var p := w.posts[n];
    var w1 := Closed(w, n);
    ClosePreserves(w, n);
    SameReply(w.Of(p.tab), p, now);
    var (l, o) := OnReply(w1.Of(p.tab), p.token, p.remembered, p.reply.value, now);
    KeyedByUser(w1);
    FailureMoves(w1.Of(p.tab), p.token, p.remembered, p.reply.value, now);
    MovePreserves(w1, p.tab, l);
    SendPreserves(w1.With(p.tab, l), p.tab, o);
    assert w1.With(p.tab, l) == w.With(p.tab, l).(posts := w.posts - {n});
  }

  lemma KeyedByUser(w: World)
    requires Inv(w)
    ensures forall u | u in w.vault :: w.vault[u].user == u
  {
  }

  lemma SameReply(l: Local, p: Post, now: nat)
    requires p.reply.Some?
    ensures OnReply(l, p.token, p.remembered, p.reply.value, now)
         == OnReply(l.(tab := l.tab.(inFlight := None)), p.token, p.remembered, p.reply.value, now)
  {
  }

  lemma GrantPreserves(w: World, n: nat, now: nat)
    requires Inv(w) && Enabled(w, ReplyArrives(n, now)) && IsGranted(w.posts[n])
    ensures Inv(DeliverReply(w, n, now))
  {
    hide Settled, PendingFresh, AnsweredSpent, OneRequestPerTab, DeliverReply;
    GrantSettles(w, n, now);
    GrantClosesRequest(w, n, now);
    GrantStaysFresh(w, n, now);
  }

  lemma GrantSettles(w: World, n: nat, now: nat)
    requires Inv(w) && Enabled(w, ReplyArrives(n, now)) && IsGranted(w.posts[n])
    ensures Settled(DeliverReply(w, n, now))
  {
    hide AnsweredSpent, Reconcile, RefreshAccess;
  }

  lemma GrantClosesRequest(w: World, n: nat, now: nat)
    requires Inv(w) && Enabled(w, ReplyArrives(n, now)) && IsGranted(w.posts[n])
    ensures OneRequestPerTab(DeliverReply(w, n, now))
  {
    hide Settled, PendingFresh, AnsweredSpent, Reconcile, RefreshAccess;
  }

  lemma GrantStaysFresh(w: World, n: nat, now: nat)
    requires Inv(w) && Enabled(w, ReplyArrives(n, now)) && IsGranted(w.posts[n])
    ensures PendingFresh(DeliverReply(w, n, now)) && AnsweredSpent(DeliverReply(w, n, now))
  {
    hide Settled, OneRequestPerTab, Reconcile, RefreshAccess;
  }

  lemma PickPreserves(w: World, t: TabId, pair: Pair)
    requires Inv(w) && Enabled(w, Pick(t, pair))
    ensures Inv(w.With(t, Adopt(w.Of(t), pair, false)))
  {
  }

  lemma LoginPreserves(w: World, a: Action)
    requires Inv(w) && a.Login?
    ensures Inv(Step(w, a))
  {
    hide RefreshAccess, DeliverReply, DeliverLogin, ServeRenewal, Adopt, Bootstrap, Logout, Drop;
  }

  lemma ForgetPreserves(w: World, u: UserId)
    requires Inv(w)
    ensures Inv(w.(vault := Forget(w.vault, u)))
  {
  }

  // Opening a tab and announcing a lost session move no pair and no request.
  lemma MarkPreserves(w: World, t: TabId, tab: Tab)
    requires Inv(w)
    requires if t in w.tabs then tab == w.tabs[t].(lost := tab.lost, announced := tab.announced)
             else tab.held.None? && tab.inFlight.None?
    ensures Inv(w.(tabs := w.tabs[t := tab]))
  {
  }

  lemma SignOutMoves(l: Local)
    ensures Moves(l, Logout(l), {}) && Logout(l).tab.inFlight == l.tab.inFlight
    ensures Moves(l, Drop(l), {}) && Drop(l).tab.inFlight == l.tab.inFlight
  {
  }

  lemma BootMoves(l: Local)
    requires forall u | u in l.vault :: l.vault[u].user == u
    ensures Moves(l, Bootstrap(l), {}) && Bootstrap(l).tab.inFlight == l.tab.inFlight
  {
  }

  // Every step keeps the invariant, whatever the server fails at and the visitor picks.
  lemma StepPreserves(w: World, a: Action)
    requires Inv(w)
    ensures Inv(Step(w, a))
  {
    hide Inv, RefreshAccess, DeliverReply, DeliverLogin, ServeRenewal, Adopt, Bootstrap, Logout, Drop;
    if Enabled(w, a) {
      match a
      case OpenTab(t) => MarkPreserves(w, t, Tab(None, None, false, false));
      case Announce(t) => MarkPreserves(w, t, w.tabs[t].(lost := true, announced := true));
      case ForgetEntry(u) => ForgetPreserves(w, u);
      case Login(_, _, _, _, _) => LoginPreserves(w, a);
      case LoginArrives(n) => LoginArrivesPreserves(w, n);
      case Serve(n, expires, handling) => ServePreserves(w, n, expires, handling);
      case Renew(t, now) =>
        var (l, o) := RefreshAccess(w.Of(t), now);
        KeyedByUser(w);
        RefreshMoves(w.Of(t), now);
        MovePreserves(w, t, l);
        SendPreserves(w.With(t, l), t, o);
      case ReplyArrives(n, now) =>
        if IsGranted(w.posts[n]) { GrantPreserves(w, n, now); } else { FailurePreserves(w, n, now); }
      case SignOut(t) =>
        SignOutMoves(w.Of(t));
        MovePreserves(w, t, Logout(w.Of(t)));
      case DropTab(t) =>
        SignOutMoves(w.Of(t));
        MovePreserves(w, t, Drop(w.Of(t)));
      case Boot(t) =>
        KeyedByUser(w);
        BootMoves(w.Of(t));
        MovePreserves(w, t, Bootstrap(w.Of(t)));
      case Pick(t, pair) => PickPreserves(w, t, pair);
    }
  }

  // ---------- Runs ----------

  function After(w: World, acts: seq<Action>, i: nat): World
    requires i <= |acts|
  {
    if i == 0 then w else Step(After(w, acts, i - 1), acts[i - 1])
  }

  lemma {:induction false} InvOverRuns(w: World, acts: seq<Action>, i: nat)
    requires i <= |acts| && Inv(w)
    ensures Inv(After(w, acts, i))
  {
    if i > 0 {
      hide Inv, Step;
      InvOverRuns(w, acts, i - 1);
      StepPreserves(After(w, acts, i - 1), acts[i - 1]);
    }
  }

  lemma KnownForGood(w: World, a: Action, p: Pair)
    requires Inv(w) && Known(w, p)
    ensures Known(Step(w, a), p)
  {
    hide OnReply, RefreshAccess, Adopt, Bootstrap, Logout, Drop, Reconcile;
  }

  lemma GrantedReply(l: Local, p: Post, now: nat)
    requires IsGranted(p)
    ensures OnReply(l, p.token, p.remembered, p.reply.value, now)
         == (Adopt(l.(tab := l.tab.(inFlight := None)), p.reply.value.pair, p.remembered), Resolved)
  {
  }

  // ---------- What keeps a pair alive ----------

  // Step a takes the future of p away from whoever still holds p: a granted renewal of
  // it is delivered, or it is exchanged other than for a stored pair on its way to a
  // tab that recorded the account as remembered.
  predicate Retires(w: World, a: Action, p: Pair) {
    || (a.ReplyArrives? && Enabled(w, a) && w.posts[a.request].token == p && IsGranted(w.posts[a.request]))
    || (Exchanges(w, a, p) && !(a.handling == Issues(true) && w.posts[a.request].remembered))
  }

  // Step a exchanges token.
  predicate Exchanges(w: World, a: Action, token: Pair) {
    a.Serve? && Enabled(w, a) && !a.handling.Unreached? && w.posts[a.request].token == token && token in w.live
  }

  // How a step changes the requests on their way and the accepted tokens.
  lemma StepMovesRequests(w: World, a: Action)
    requires Inv(w)
    ensures var w' := Step(w, a);
            && (forall n | n in w'.posts && n != w.next ::
                  n in w.posts && (w'.posts[n] == w.posts[n] || (a.Serve? && Enabled(w, a) && a.request == n)))
            && (w.next in w'.posts ==> w'.posts[w.next].reply.None?)
            && (forall n | n in w.posts ::
                  n in w'.posts || (a.ReplyArrives? && Enabled(w, a) && a.request == n))
            && (a.ReplyArrives? && Enabled(w, a) ==> a.request !in w'.posts)
            && (forall p | p in w.live :: p in w'.live || Exchanges(w, a, p))
            && (forall p | p in w'.live :: p in w.live || p.id == w.next ||
                  (a.Serve? && Enabled(w, a) && p.id == a.request))
            && (a.Serve? && Enabled(w, a) ==> w' == ServeRenewal(w, a.request, a.expires, a.handling))
  {
    hide OnReply, RefreshAccess, Adopt, Bootstrap, Logout, Drop, Reconcile, AnsweredSpent, OneRequestPerTab;
    StepMovesLive(w, a);
  }

  lemma StepMovesLive(w: World, a: Action)
    ensures var w' := Step(w, a);
            && (forall p | p in w.live :: p in w'.live || Exchanges(w, a, p))
            && (forall p | p in w'.live :: p in w.live || p.id == w.next ||
                  (a.Serve? && Enabled(w, a) && p.id == a.request))
            && (a.Serve? && Enabled(w, a) ==> w' == ServeRenewal(w, a.request, a.expires, a.handling))
  {
    hide OnReply, RefreshAccess, Adopt, Bootstrap, Logout, Drop, Reconcile;
  }

  // A pair somebody knows and that is backed stays so exactly until it is retired.
  lemma BackedUntilRetired(w: World, a: Action, p: Pair)
    requires Inv(w) && Known(w, p) && Backed(w, p)
    ensures Backed(Step(w, a), p) <==> !Retires(w, a, p)
  {
    hide Step, ServeRenewal;
    var w' := Step(w, a);
    StepMovesRequests(w, a);
    if a.Serve? && Enabled(w, a) {
      ServedBacking(w, a, p);
    } else if p !in w.live {
      var n :| n in w.posts && w.posts[n].token == p && Renews(w, n);
      if !Retires(w, a, p) {
        assert n in w'.posts && w'.posts[n].token == p && Renews(w', n);
      } else {
        assert a.request == n;
        OnlyThatOne(w, w', n, p);
      }
    }
  }

  lemma OnlyThatOne(w: World, w': World, n: nat, p: Pair)
    requires AnsweredSpent(w) && n in w.posts && IsGranted(w.posts[n]) && w.posts[n].token == p
    requires n !in w'.posts && p !in w'.live
    requires forall m | m in w'.posts && IsGranted(w'.posts[m]) :: m in w.posts && w'.posts[m] == w.posts[m]
    ensures !Backed(w', p)
  {
  }

  lemma ServedBacking(w: World, a: Action, p: Pair)
    requires Inv(w) && Known(w, p) && Backed(w, p) && a.Serve? && Enabled(w, a)
    ensures Backed(ServeRenewal(w, a.request, a.expires, a.handling), p) <==> !Retires(w, a, p)
  {
    var w' := ServeRenewal(w, a.request, a.expires, a.handling);
    if p in w.live {
      if Exchanges(w, a, p) && !Retires(w, a, p) {
        assert w'.posts[a.request].token == p && Renews(w', a.request);
      }
    } else {
      var n :| n in w.posts && w.posts[n].token == p && Renews(w, n);
      assert w'.posts[n] == w.posts[n] && Renews(w', n);
    }
  }

  // And one that is not backed never is again.
  lemma NeverBackedAgain(w: World, a: Action, p: Pair)
    requires Inv(w) && Known(w, p) && !Backed(w, p)
    ensures !Backed(Step(w, a), p)
  {
    hide Step, ServeRenewal, Exchanges;
    var w' := Step(w, a);
    StepMovesRequests(w, a);
    if a.Serve? && Enabled(w, a) {
      ServedUnbacked(w, a, p);
    } else {
      forall n | n in w'.posts && w'.posts[n].token == p
        ensures !Renews(w', n)
      {
        assert n in w.posts && w.posts[n].token == p ==> !Renews(w, n);
      }
    }
  }

  lemma ServedUnbacked(w: World, a: Action, p: Pair)
    requires Inv(w) && Known(w, p) && !Backed(w, p) && a.Serve? && Enabled(w, a)
    ensures !Backed(ServeRenewal(w, a.request, a.expires, a.handling), p)
  {
    var w' := ServeRenewal(w, a.request, a.expires, a.handling);
    forall n | n in w'.posts && w'.posts[n].token == p
      ensures !Renews(w', n)
    {
      assert !Renews(w, n);
    }
  }

  // ---------- The vault ----------

  // A step adds to the vault only pairs nobody knew, delivered by the server.
  predicate VaultGrowsNew(w: World, w': World) {
    forall u | u in w'.vault :: (u in w.vault && w'.vault[u] == w.vault[u]) || !Known(w, w'.vault[u])
  }

  // A pair that arrives was on its way.
  predicate Arrives(w: World, a: Action, p: Pair) {
    || (a.LoginArrives? && Enabled(w, a) && p == w.signIns[a.request].pair)
    || (a.ReplyArrives? && Enabled(w, a) && IsGranted(w.posts[a.request]) && p == w.posts[a.request].reply.value.pair)
  }

  ghost predicate VaultGains(w: World, w': World, a: Action) {
    forall u | u in w'.vault :: (u in w.vault && w'.vault[u] == w.vault[u]) || Arrives(w, a, w'.vault[u])
  }

  lemma VaultGrows(w: World, a: Action)
    requires Inv(w) && Current(w, a)
    ensures VaultGrowsNew(w, Step(w, a)) && VaultGains(w, Step(w, a), a)
  {
    hide Step, Inv, VaultGrowsNew, VaultGains;
    if a.ReplyArrives? && Enabled(w, a) {
      VaultGainsByReply(w, a);
    } else {
      VaultGainsOtherwise(w, a);
    }
    ArrivalIsNew(w, Step(w, a), a);
  }

  lemma ArrivalIsNew(w: World, w': World, a: Action)
    requires Inv(w) && VaultGains(w, w', a)
    ensures VaultGrowsNew(w, w')
  {
    hide AnsweredSpent, OneRequestPerTab;
  }

  lemma VaultGainsOtherwise(w: World, a: Action)
    requires Inv(w) && Current(w, a) && !(a.ReplyArrives? && Enabled(w, a))
    ensures VaultGains(w, Step(w, a), a)
  {
    hide OnReply, RefreshAccess, AnsweredSpent, OneRequestPerTab;
    if a.Renew? && Enabled(w, a) {
      RefreshMoves(w.Of(a.tab), a.now);
    }
  }

  lemma VaultGainsByReply(w: World, a: Action)
    requires Inv(w) && a.ReplyArrives? && Enabled(w, a)
    ensures VaultGains(w, Step(w, a), a)
  {
    hide OnReply, RefreshAccess, AnsweredSpent;
    var p := w.posts[a.request];
    var l0 := Closed(w, a.request).Of(p.tab);
    SameReply(w.Of(p.tab), p, a.now);
    if IsGranted(p) {
      GrantedReply(w.Of(p.tab), p, a.now);
    } else {
      FailureMoves(l0, p.token, p.remembered, p.reply.value, a.now);
    }
  }

  // A retired pair leaves the vault, unless the server doomed it.
  lemma RetiredLeavesVault(w: World, a: Action, u: UserId)
    requires Inv(w) && UnrememberedElsewhere(w) && u in w.vault && Retires(w, a, w.vault[u])
    ensures w.vault[u] in Dooms(w, a) || (u in Step(w, a).vault && Step(w, a).vault[u] != w.vault[u])
  {
    hide OnReply, RefreshAccess;
    if a.ReplyArrives? {
      GrantedReply(w.Of(w.posts[a.request].tab), w.posts[a.request], a.now);
    }
  }

  // The server's own part of the bookkeeping.
  lemma DoomedStaysApart(w: World, a: Action, doomed: set<Pair>)
    requires Inv(w) && DoomedApart(w, doomed)
    ensures DoomedApart(Step(w, a), doomed + Dooms(w, a))
  {
    hide Step, Inv, DoomedApart, Dooms;
    if a.Serve? && Enabled(w, a) {
      StepMovesRequests(w, a);
      ServedApart(w, a, doomed);
    } else if a.Login? {
      LoginApart(w, a, doomed);
    } else {
      OthersApart(w, a, doomed);
    }
  }

  lemma ServedApart(w: World, a: Action, doomed: set<Pair>)
    requires Inv(w) && DoomedApart(w, doomed) && a.Serve? && Enabled(w, a)
    ensures DoomedApart(ServeRenewal(w, a.request, a.expires, a.handling), doomed + Dooms(w, a))
  {
    hide OneRequestPerTab;
  }

  lemma LoginApart(w: World, a: Action, doomed: set<Pair>)
    requires Inv(w) && DoomedApart(w, doomed) && a.Login?
    ensures DoomedApart(Step(w, a), doomed + Dooms(w, a))
  {
    hide OnReply, RefreshAccess, Adopt, Bootstrap, Logout, Drop, Reconcile, OneRequestPerTab;
  }

  // The other steps open and close requests and leave the server alone.
  lemma OthersApart(w: World, a: Action, doomed: set<Pair>)
    requires Inv(w) && DoomedApart(w, doomed) && !(a.Serve? && Enabled(w, a)) && !a.Login?
    ensures DoomedApart(Step(w, a), doomed + Dooms(w, a))
  {
    hide Step, OneRequestPerTab, Settled, AnsweredSpent, ServeRenewal;
    StepMovesRequests(w, a);
    StepMovesSignIns(w, a);
  }

  lemma StepMovesSignIns(w: World, a: Action)
    requires !(a.Serve? && Enabled(w, a)) && !a.Login?
    ensures var w' := Step(w, a);
            && w'.live == w.live && w.next <= w'.next
            && (forall n | n in w'.signIns :: n in w.signIns && w'.signIns[n] == w.signIns[n])
  {
    hide OnReply, RefreshAccess, Adopt, Bootstrap, Logout, Drop, Reconcile;
  }

  // What arrives is accepted by the server or doomed.
  lemma ArrivalIsBacked(w: World, a: Action, doomed: set<Pair>, p: Pair)
    requires Inv(w) && DoomedApart(w, doomed) && Arrives(w, a, p)
    ensures p in Step(w, a).live || p in doomed
  {
    hide OnReply, RefreshAccess, Adopt;
  }

  lemma UnrememberedStays(w: World, a: Action)
    requires Inv(w) && UnrememberedElsewhere(w) && Current(w, a)
    ensures UnrememberedElsewhere(Step(w, a))
  {
    hide Step, PendingFresh, AnsweredSpent, OneRequestPerTab, ServeRenewal, Known, VaultGains;
    var w' := Step(w, a);
    VaultGrows(w, a);
    StepMovesRequests(w, a);
    SentIsRemembered(w, a);
    TokensAreKnown(w);
    forall n | n in w'.posts && !w'.posts[n].remembered
      ensures var p := w'.posts[n].token; p.user in w'.vault ==> w'.vault[p.user] != p
    {
      if n != w.next {
        SameToken(w, a, n);
      }
    }
  }

  lemma TokensAreKnown(w: World)
    requires Inv(w)
    ensures forall n | n in w.posts :: Known(w, w.posts[n].token)
  {
  }

  lemma SameToken(w: World, a: Action, n: nat)
    requires Inv(w) && n in Step(w, a).posts && n != w.next
    ensures n in w.posts
    ensures Step(w, a).posts[n].token == w.posts[n].token && Step(w, a).posts[n].remembered == w.posts[n].remembered
  {
    hide Step;
    StepMovesRequests(w, a);
  }

  // A renewal knows at the moment it posts whether the vault holds its account.
  lemma SentIsRemembered(w: World, a: Action)
    requires Inv(w)
    ensures var w' := Step(w, a);
            w.next in w'.posts ==> w'.posts[w.next].remembered == (w'.posts[w.next].token.user in w'.vault)
  {
    hide OnReply, RefreshAccess, Adopt, Bootstrap, Logout, Drop, Reconcile;
    if Enabled(w, a) {
      if a.Renew? {
        RefreshMoves(w.Of(a.tab), a.now);
      } else if a.ReplyArrives? {
        var p := w.posts[a.request];
        var l0 := Closed(w, a.request).Of(p.tab);
        SameReply(w.Of(p.tab), p, a.now);
        if IsGranted(p) {
          GrantedReply(w.Of(p.tab), p, a.now);
        } else {
          FailureMoves(l0, p.token, p.remembered, p.reply.value, a.now);
        }
      }
    }
  }

  lemma VaultStaysBackedOr(w: World, a: Action, doomed: set<Pair>)
    requires Inv(w) && UnrememberedElsewhere(w) && Current(w, a) && DoomedApart(w, doomed) && VaultBackedOr(w, doomed)
    ensures VaultBackedOr(Step(w, a), doomed + Dooms(w, a))
  {
    hide Inv, Step, DoomedApart, Backed, Dooms, Retires, Arrives, Current, VaultGrowsNew, UnrememberedElsewhere;
    var w' := Step(w, a);
    VaultGrows(w, a);
    forall u | u in w'.vault
      ensures Backed(w', w'.vault[u]) || w'.vault[u] in doomed + Dooms(w, a)
    {
      if u in w.vault && w'.vault[u] == w.vault[u] {
        VaultIsKnown(w, u);
        if Backed(w, w.vault[u]) {
          BackedUntilRetired(w, a, w.vault[u]);
          if Retires(w, a, w.vault[u]) {
            RetiredLeavesVault(w, a, u);
          }
        }
      } else {
        ArrivalIsBacked(w, a, doomed, w'.vault[u]);
        LiveIsBacked(w', w'.vault[u]);
      }
    }
  }

  lemma LiveIsBacked(w: World, p: Pair)
    ensures p in w.live ==> Backed(w, p)
  {
  }

  lemma VaultIsKnown(w: World, u: UserId)
    requires Inv(w) && u in w.vault
    ensures Known(w, w.vault[u])
  {
  }

  lemma DoomedIsDead(w: World, doomed: set<Pair>, p: Pair)
    requires DoomedApart(w, doomed) && p in doomed
    ensures !Backed(w, p)
  {
  }

  predicate PicksAreCurrent(w: World, acts: seq<Action>) {
    forall i | 0 <= i < |acts| :: Current(After(w, acts, i), acts[i])
  }

  // The tokens the server left without a future in the first i steps.
  function Doomed(w: World, acts: seq<Action>, i: nat): set<Pair>
    requires i <= |acts|
  {
    if i == 0 then {} else Doomed(w, acts, i - 1) + Dooms(After(w, acts, i - 1), acts[i - 1])
  }

  lemma {:induction false} VaultOverRuns(acts: seq<Action>, i: nat)
    requires i <= |acts| && PicksAreCurrent(START, acts)
    ensures Inv(After(START, acts, i)) && UnrememberedElsewhere(After(START, acts, i))
    ensures DoomedApart(After(START, acts, i), Doomed(START, acts, i))
    ensures VaultBackedOr(After(START, acts, i), Doomed(START, acts, i))
  {
    hide Step, Inv, DoomedApart, VaultBackedOr, Current, Dooms, UnrememberedElsewhere;
    if i == 0 {
      StartIsSound();
    } else {
      VaultOverRuns(acts, i - 1);
      var w := After(START, acts, i - 1);
      StepPreserves(w, acts[i - 1]);
      UnrememberedStays(w, acts[i - 1]);
      DoomedStaysApart(w, acts[i - 1], Doomed(START, acts, i - 1));
      VaultStaysBackedOr(w, acts[i - 1], Doomed(START, acts, i - 1));
    }
  }

  lemma StartIsSound()
    ensures Inv(START) && UnrememberedElsewhere(START) && DoomedApart(START, {}) && VaultBackedOr(START, {})
  {
  }

  // In every state any number of tabs can reach, whatever the server fails at, a vault
  // entry is accepted by the server, or its accepted renewal is in flight in a tab that
  // remembered the account, if and only if the server has not spent it without storing
  // a successor nor handed it out without storing it.
  lemma VaultEntryIsBackedIff(acts: seq<Action>, i: nat, u: UserId)
    requires i <= |acts| && PicksAreCurrent(START, acts) && u in After(START, acts, i).vault
    ensures Backed(After(START, acts, i), After(START, acts, i).vault[u]) <==>
              After(START, acts, i).vault[u] !in Doomed(START, acts, i)
  {
    hide Step, Inv, DoomedApart, Backed, Doomed, Current;
    VaultOverRuns(acts, i);
    var p := After(START, acts, i).vault[u];
    if p in Doomed(START, acts, i) {
      DoomedIsDead(After(START, acts, i), Doomed(START, acts, i), p);
    }
  }

  // No exchange failed after the deletion and no key went unstored.
  predicate ServerCompletes(acts: seq<Action>) {
    forall i | 0 <= i < |acts| ::
      && (acts[i].Login? ==> acts[i].stored)
      && (acts[i].Serve? ==> acts[i].handling.Unreached? || acts[i].handling == Issues(true))
  }

  lemma {:induction false} NothingDoomed(acts: seq<Action>, i: nat)
    requires i <= |acts| && ServerCompletes(acts)
    ensures Doomed(START, acts, i) == {}
  {
    hide Step;
    if i > 0 {
      NothingDoomed(acts, i - 1);
    }
  }

  // As long as the server completes what it begins, the vault never holds a dead token;
  // and each tab has at most one request outstanding, whatever the server does.
  lemma VaultIsNeverDead(acts: seq<Action>, i: nat)
    requires i <= |acts|
    ensures PicksAreCurrent(START, acts) && ServerCompletes(acts) ==> VaultBacked(After(START, acts, i))
    ensures OneRequestPerTab(After(START, acts, i))
  {
    hide Step, Backed, Doomed, Current;
    StartIsSound();
    InvOverRuns(START, acts, i);
    if PicksAreCurrent(START, acts) && ServerCompletes(acts) {
      VaultOverRuns(acts, i);
      NothingDoomed(acts, i);
    }
  }

  // ---------- Picking a listed account ----------

  // A listed entry is picked after the steps `acts`. It leaves the account's vault entry
  // backed if and only if the account is no longer in the vault or nothing retired the
  // listed pair since it was listed.
  lemma ListedPickIsSafeIff(w: World, acts: seq<Action>, t: TabId, u: UserId)
    requires Inv(w) && u in w.vault && Backed(w, w.vault[u])
    requires Enabled(After(w, acts, |acts|), Pick(t, w.vault[u]))
    ensures var before := After(w, acts, |acts|);
            var after := Step(before, Pick(t, w.vault[u]));
            (u in after.vault ==> Backed(after, after.vault[u])) <==>
              u !in before.vault || forall k | 0 <= k < |acts| :: !Retires(After(w, acts, k), acts[k], w.vault[u])
  {
    hide Step, Inv, Backed, Retires;
    var p := w.vault[u];
    var before := After(w, acts, |acts|);
    VaultIsKnown(w, u);
    KeyedByUser(w);
    RetiredOverRuns(w, acts, |acts|, p);
    PickBacks(before, t, p);
  }

  // The other entries of the vault, and what is backed, stay as they were.
  lemma PickBacks(w: World, t: TabId, p: Pair)
    requires Enabled(w, Pick(t, p))
    ensures var w' := Step(w, Pick(t, p));
            && w'.vault == (if p.user in w.vault then w.vault[p.user := p] else w.vault)
            && forall q :: Backed(w', q) <==> Backed(w, q)
  {
  }

  lemma {:induction false} RetiredOverRuns(w: World, acts: seq<Action>, i: nat, p: Pair)
    requires i <= |acts| && Inv(w) && Known(w, p) && Backed(w, p)
    ensures Known(After(w, acts, i), p)
    ensures Backed(After(w, acts, i), p) <==> forall k | 0 <= k < i :: !Retires(After(w, acts, k), acts[k], p)
  {
    hide Step, Inv, Backed, Retires, Known;
    if i > 0 {
      RetiredOverRuns(w, acts, i - 1, p);
      InvOverRuns(w, acts, i - 1);
      var b := After(w, acts, i - 1);
      KnownForGood(b, acts[i - 1], p);
      if Backed(b, p) {
        BackedUntilRetired(b, acts[i - 1], p);
      } else {
        NeverBackedAgain(b, acts[i - 1], p);
      }
    }
  }

  // What a page can check: an entry the vault still holds, or whose account has left
  // it, is picked without harm.
  lemma CurrentPickIsSafe(w: World, t: TabId, p: Pair)
    requires Enabled(w, Pick(t, p)) && Current(w, Pick(t, p))
    ensures Step(w, Pick(t, p)).vault == w.vault
  {
  }

  // ---------- Exchanges ----------

  // A token the server no longer accepts, or has handed out and taken back.
  predicate Spent(w: World, token: Pair) { Known(w, token) && token !in w.live }

  lemma SpentForGood(w: World, a: Action, token: Pair)
    requires Inv(w) && Spent(w, token)
    ensures Spent(Step(w, a), token)
  {
    hide OnReply, RefreshAccess, Adopt, Bootstrap, Logout, Drop, Reconcile;
  }

  lemma ExchangeSpends(w: World, a: Action, token: Pair)
    requires Inv(w) && Exchanges(w, a, token)
    ensures Spent(Step(w, a), token)
  {
  }

  lemma {:induction false} StaysSpent(w: World, acts: seq<Action>, i: nat, j: nat, token: Pair)
    requires i <= j <= |acts| && Inv(w) && Spent(After(w, acts, i), token)
    ensures Spent(After(w, acts, j), token)
  {
    hide Inv, Step, Spent, Holds, Switches;
    if i < j {
      StaysSpent(w, acts, i, j - 1, token);
      InvOverRuns(w, acts, j - 1);
      SpentForGood(After(w, acts, j - 1), acts[j - 1], token);
    }
  }

  // No refresh token is exchanged twice in any run.
  lemma ExchangedOnce(w: World, acts: seq<Action>, i: nat, j: nat, token: Pair)
    requires i < j < |acts| && Inv(w)
    requires Exchanges(After(w, acts, i), acts[i], token)
    ensures !Exchanges(After(w, acts, j), acts[j], token)
  {
    hide Inv, Step;
    InvOverRuns(w, acts, i);
    ExchangeSpends(After(w, acts, i), acts[i], token);
    StaysSpent(w, acts, i + 1, j, token);
  }

  // ---------- What may happen to a live vault entry ----------

  predicate RemovesOnPurpose(w: World, a: Action, u: UserId) {
    || (a.ForgetEntry? && a.user == u)
    || (a.SignOut? && a.tab in w.tabs && CurrentUser(w.tabs[a.tab]) == Some(u))
  }

  // An entry the server still accepts leaves the vault only by signing out or being
  // forgotten; otherwise it stays or gives way to a pair that has just arrived, and that
  // is accepted too unless the server could not store it.
  lemma LiveEntriesSurvive(w: World, a: Action, doomed: set<Pair>, u: UserId)
    requires Inv(w) && Current(w, a) && DoomedApart(w, doomed) && u in w.vault && w.vault[u] in w.live
    ensures var w' := Step(w, a);
            if u !in w'.vault then RemovesOnPurpose(w, a, u)
            else w'.vault[u] == w.vault[u] ||
                 (Arrives(w, a, w'.vault[u]) && (w'.vault[u] in w'.live || w'.vault[u] in doomed))
  {
    hide Step, Arrives, DoomedApart;
    VaultGrows(w, a);
    LiveEntriesStay(w, a, u);
    if u in Step(w, a).vault && Step(w, a).vault[u] != w.vault[u] {
      ArrivalIsBacked(w, a, doomed, Step(w, a).vault[u]);
    }
  }

  lemma LiveEntriesStay(w: World, a: Action, u: UserId)
    requires Inv(w) && Current(w, a) && u in w.vault && w.vault[u] in w.live
    ensures u !in Step(w, a).vault ==> RemovesOnPurpose(w, a, u)
  {
    hide RefreshAccess, OnReply, Reconcile;
    if Enabled(w, a) && a.Renew? {
      RefreshMoves(w.Of(a.tab), a.now);
    } else if Enabled(w, a) && a.ReplyArrives? {
      LiveEntriesSurviveReply(w, a.request, a.now, u);
    }
  }

  lemma LiveEntriesSurviveReply(w: World, n: nat, now: nat, u: UserId)
    requires Inv(w) && Enabled(w, ReplyArrives(n, now)) && u in w.vault && w.vault[u] in w.live
    ensures u in DeliverReply(w, n, now).vault
  {
    var p := w.posts[n];
    if !IsGranted(p) {
      hide OnReply;
      var l0 := w.Of(p.tab).(tab := w.tabs[p.tab].(inFlight := None));
      SameReply(w.Of(p.tab), p, now);
      FailureMoves(l0, p.token, p.remembered, p.reply.value, now);
    }
  }

  // ---------- A renewal keeps the tab's account ----------

  // Tab t takes up or gives up an account by itself.
  predicate Switches(w: World, a: Action, t: TabId) {
    match a
    case LoginArrives(n) => n in w.signIns && w.signIns[n].tab == t
    case SignOut(t') => t' == t
    case DropTab(t') => t' == t
    case Boot(t') => t' == t
    case Pick(t', _) => t' == t
    case _ => false
  }

  // Tab t holds account u, and so does the renewal it may have in flight.
  predicate Holds(w: World, t: TabId, u: UserId) {
    && t in w.tabs && CurrentUser(w.tabs[t]) == Some(u)
    && (forall n | n in w.posts && w.posts[n].tab == t :: w.posts[n].token.user == u)
  }

  lemma StepKeepsAccount(w: World, a: Action, t: TabId, u: UserId)
    requires Inv(w) && Holds(w, t, u) && !Switches(w, a, t)
    ensures Holds(Step(w, a), t, u)
  {
    hide RefreshAccess, OnReply, AnsweredSpent, VaultBacked, Exchange;
    if Enabled(w, a) {
      if a.Renew? {
        RefreshMoves(w.Of(a.tab), a.now);
      } else if a.ReplyArrives? {
        ReplyKeepsAccount(w, a.request, a.now, t, u);
      }
    }
  }

  lemma ReplyKeepsAccount(w: World, n: nat, now: nat, t: TabId, u: UserId)
    requires Inv(w) && Enabled(w, ReplyArrives(n, now)) && Holds(w, t, u)
    ensures Holds(Step(w, ReplyArrives(n, now)), t, u)
  {
    hide RefreshAccess, OnReply, AnsweredSpent, VaultBacked, Exchange;
    var p := w.posts[n];
    var l0 := w.Of(p.tab).(tab := w.tabs[p.tab].(inFlight := None));
    SameReply(w.Of(p.tab), p, now);
    if IsGranted(p) {
      GrantedReply(w.Of(p.tab), p, now);
    } else {
      FailureMoves(l0, p.token, p.remembered, p.reply.value, now);
    }
  }

  // Between two moments at which the visitor does not sign in or out in tab t,
  // its account stays the same, whatever renewals do.
  lemma {:induction false} AccountIsStable(w: World, acts: seq<Action>, i: nat, j: nat, t: TabId, u: UserId)
    requires i <= j <= |acts| && Inv(w)
    requires Holds(After(w, acts, i), t, u)
    requires forall k | i <= k < j :: !Switches(After(w, acts, k), acts[k], t)
    ensures Holds(After(w, acts, j), t, u)
  {
    hide Inv, Step, Spent, Holds, Switches;
    if i < j {
      AccountIsStable(w, acts, i, j - 1, t, u);
      InvOverRuns(w, acts, j - 1);
      StepKeepsAccount(After(w, acts, j - 1), acts[j - 1], t, u);
    }
  }

  // ---------- The stale pick ----------

  // Account 7 signs in on tab 0 and asks to be remembered; tab 1 is open on the
  // list of accounts.
  function ListedOnce(): World {
    var blank := Tab(None, None, false, false);
    World(map[0 := blank.(held := Some(Pair(0, 7, 10))), 1 := blank], map[7 := Pair(0, 7, 10)],
          map[], map[], {Pair(0, 7, 10)}, 1)
  }

  lemma ListedOnceIsReachable()
    ensures After(START, [OpenTab(0), OpenTab(1), Login(0, 7, true, 10, true), LoginArrives(0)], 4) == ListedOnce()
  {
    var acts := [OpenTab(0), OpenTab(1), Login(0, 7, true, 10, true), LoginArrives(0)];
    var blank, pair := Tab(None, None, false, false), Pair(0, 7, 10);
    var w2 := START.(tabs := map[0 := blank, 1 := blank]);
    assert After(START, acts, 1) == START.(tabs := map[0 := blank]);
    assert After(START, acts, 2) == w2;
    assert After(START, acts, 3) == w2.(signIns := map[0 := SignIn(0, pair, true)], live := {pair}, next := 1);
    assert After(START, acts, 4).signIns == map[];
  }

  // Tab 0 renews, and tab 1 then adopts the entry it listed before: the vault
  // holds a spent token and nothing in flight replaces it.
  lemma StalePickBreaksTheVault()
    ensures var w := Step(Step(Step(Step(ListedOnce(), Renew(0, 20)), Serve(1, 30, Issues(true))), ReplyArrives(1, 20)),
                          Pick(1, Pair(0, 7, 10)));
            7 in w.vault && !Backed(w, w.vault[7])
  {
    hide OnReply, RefreshAccess, DeliverReply;
    RenewedOnce();
    var w := Step(Step(Step(ListedOnce(), Renew(0, 20)), Serve(1, 30, Issues(true))), ReplyArrives(1, 20));
    assert Step(w, Pick(1, Pair(0, 7, 10))).vault == map[7 := Pair(0, 7, 10)];
  }

  // Tab 0 renews the listed pair and is served.
  lemma RenewedOnce()
    ensures var w := Step(Step(Step(ListedOnce(), Renew(0, 20)), Serve(1, 30, Issues(true))), ReplyArrives(1, 20));
            && w.posts == map[] && w.live == {Pair(1, 7, 30)} && w.vault == map[7 := Pair(1, 7, 30)] && w.next == 2
            && 1 in w.tabs && w.tabs[1].inFlight.None? && w.signIns == map[]
  {
    hide Bootstrap, Logout;
    var w1 := Step(ListedOnce(), Renew(0, 20));
    var w2 := Step(w1, Serve(1, 30, Issues(true)));
    assert w1.posts == map[1 := Post(0, Pair(0, 7, 10), true, None)] && w1.live == {Pair(0, 7, 10)};
    assert w2.posts == map[1 := Post(0, Pair(0, 7, 10), true, Some(Granted(Pair(1, 7, 30))))];
    assert w2.live == {Pair(1, 7, 30)};
  }

  // A key Redis did not store: the tab renews, and the vault is left with a token the
  // server never accepted.
  lemma UnstoredKeyEndsInTheVault()
    ensures var w := Step(Step(Step(ListedOnce(), Renew(0, 20)), Serve(1, 30, Issues(false))), ReplyArrives(1, 20));
            7 in w.vault && w.vault[7] == Pair(1, 7, 30) && !Backed(w, w.vault[7])
  {
    var p0, p1, w := Pair(0, 7, 10), Pair(1, 7, 30), ListedOnce();
    var w1 := Step(w, Renew(0, 20));
    var w2 := Step(w1, Serve(1, 30, Issues(false)));
    var w3 := Step(w2, ReplyArrives(1, 20));
    assert w1.posts == map[1 := Post(0, p0, true, None)] && w1.live == {p0} && w1.vault == w.vault;
    assert w2.posts == map[1 := Post(0, p0, true, Some(Granted(p1)))] && w2.live == {} && w2.vault == w.vault;
    assert w3.posts == map[] && w3.live == {} && w3.vault == map[7 := p1];
  }
}
