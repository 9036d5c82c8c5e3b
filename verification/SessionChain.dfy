// How often one renewal posts. A call of refreshAccess that sends a POST and, on
// failure, tries again with another token is a chain: it lasts while the tab's
// in-flight mark stays set.
module SessionChain {
  import opened Options
  import opened Session
  import opened SessionWorld
  import opened SessionSafety

  // Tab t has a renewal outstanding that carries `token`.
  predicate Carries(w: World, t: TabId, token: Pair) {
    && t in w.tabs && w.tabs[t].inFlight.Some?
    && w.tabs[t].inFlight.value in w.posts && w.posts[w.tabs[t].inFlight.value].token == token
  }

  // Step a sends a POST for tab t.
  predicate SendsFor(w: World, a: Action, t: TabId) {
    var w' := Step(w, a);
    w.next in w'.posts && w'.posts[w.next].tab == t
  }

  function Sent(w: World, a: Action): Pair
    requires w.next in Step(w, a).posts
  {
    Step(w, a).posts[w.next].token
  }

  // The answer to tab t's own POST arrives.
  predicate OwnReply(w: World, a: Action, t: TabId) {
    a.ReplyArrives? && a.request in w.posts && w.posts[a.request].tab == t
  }

  // Somebody else - another tab, the visitor, another call in this tab - changes
  // the vault or the pair tab t holds.
  predicate OthersChange(w: World, a: Action, t: TabId) {
    var w' := Step(w, a);
    !OwnReply(w, a, t) && t in w.tabs && t in w'.tabs &&
    (w'.vault != w.vault || w'.tabs[t].held != w.tabs[t].held)
  }

  // The tokens tab t posts in steps i .. j-1.
  function Tokens(w: World, acts: seq<Action>, t: TabId, i: nat, j: nat): seq<Pair>
    requires i <= j <= |acts|
  {
    if i == j then []
    else
      var before := After(w, acts, j - 1);
      var rest := Tokens(w, acts, t, i, j - 1);
      if SendsFor(before, acts[j - 1], t) then rest + [Sent(before, acts[j - 1])] else rest
  }

  // How many of the steps i .. j-1 are changes made by others.
  function Changes(w: World, acts: seq<Action>, t: TabId, i: nat, j: nat): nat
    requires i <= j <= |acts|
  {
    if i == j then 0
    else Changes(w, acts, t, i, j - 1) + (if OthersChange(After(w, acts, j - 1), acts[j - 1], t) then 1 else 0)
  }

  // Step i starts a chain in tab t, which is still running after step j-1.
  predicate Chain(w: World, acts: seq<Action>, t: TabId, i: nat, j: nat)
    requires i < j <= |acts|
  {
    && acts[i].Renew? && acts[i].tab == t && SendsFor(After(w, acts, i), acts[i], t)
    && forall k | i < k <= j :: t in After(w, acts, k).tabs && After(w, acts, k).tabs[t].inFlight.Some?
  }

  // The tab holds the token it last posted, and the vault does not hold another
  // one for that account.
  predicate Quiet(w: World, t: TabId, token: Pair) {
    && t in w.tabs && w.tabs[t].held == Some(token)
    && (token.user in w.vault ==> w.vault[token.user] == token)
  }

  // ---------- One step of a chain ----------

  lemma NextIsNew(w: World)
    requires Inv(w)
    ensures w.next !in w.posts
  {
  }

  // A renewal started in the tab sends what the tab then holds.
  lemma RenewSends(w: World, t: TabId, now: nat, t': TabId)
    requires Inv(w) && t in w.tabs
    ensures var (l, o) := RefreshAccess(w.Of(t), now);
            && (SendsFor(w, Renew(t, now), t') <==> o.Posts? && t == t')
            && (o.Posts? ==> Sent(w, Renew(t, now)) == o.token)
  {
    hide RefreshAccess, Inv;
    NextIsNew(w);
  }

  // The end of a failed request, as a step of the tab alone.
  lemma ReplySends(w: World, n: nat, now: nat, t': TabId)
    requires Inv(w) && Enabled(w, ReplyArrives(n, now))
    ensures var p := w.posts[n];
            var (l, o) := OnReply(Closed(w, n).Of(p.tab), p.token, p.remembered, p.reply.value, now);
            && (SendsFor(w, ReplyArrives(n, now), t') <==> o.Posts? && p.tab == t')
            && (o.Posts? ==> Sent(w, ReplyArrives(n, now)) == o.token)
            && Step(w, ReplyArrives(n, now)) == Send(Closed(w, n).With(p.tab, l), p.tab, o)
  {
    hide OnReply, Inv;
    NextIsNew(w);
    var p := w.posts[n];
    SameReply(w.Of(p.tab), p, now);
    var (l, o) := OnReply(w.Of(p.tab), p.token, p.remembered, p.reply.value, now);
    assert Closed(w, n).With(p.tab, l) == w.With(p.tab, l).(posts := w.posts - {n});
  }

  lemma OtherActionsSendNothing(w: World, a: Action, t: TabId)
    requires Inv(w) && !(Enabled(w, a) && (a.Renew? || a.ReplyArrives?))
    ensures !SendsFor(w, a, t)
  {
    hide RefreshAccess, OnReply, Adopt, Bootstrap, Logout, Drop;
  }

  // A step while the chain lives: it repeats only from the tab's own reply, with
  // the token the tab then holds, and never when nothing has moved since the
  // last request left.
  lemma ChainStep(w: World, a: Action, t: TabId, cur: Pair)
    requires Inv(w) && Carries(w, t, cur)
    requires t in Step(w, a).tabs && Step(w, a).tabs[t].inFlight.Some?
    ensures var w' := Step(w, a);
            if SendsFor(w, a, t) then !Quiet(w, t, cur) && Carries(w', t, Sent(w, a)) && Quiet(w', t, Sent(w, a))
            else Carries(w', t, cur) && (Quiet(w, t, cur) && !OthersChange(w, a, t) ==> Quiet(w', t, cur))
  {
    if Enabled(w, a) && a.Renew? {
      RenewChainStep(w, a, t, cur);
    } else if Enabled(w, a) && a.ReplyArrives? {
      if w.posts[a.request].tab == t {
        OwnReplyChainStep(w, a, t, cur);
      } else {
        OtherReplyChainStep(w, a, t, cur);
      }
    } else {
      OtherActionsSendNothing(w, a, t);
      OtherChainStep(w, a, t, cur);
    }
  }

  lemma RenewChainStep(w: World, a: Action, t: TabId, cur: Pair)
    requires Inv(w) && Carries(w, t, cur) && a.Renew? && Enabled(w, a)
    ensures !SendsFor(w, a, t) && Carries(Step(w, a), t, cur)
    ensures Quiet(w, t, cur) && !OthersChange(w, a, t) ==> Quiet(Step(w, a), t, cur)
  {
    hide RefreshAccess;
    RefreshMoves(w.Of(a.tab), a.now);
    RenewSends(w, a.tab, a.now, t);
  }

  lemma OwnReplyChainStep(w: World, a: Action, t: TabId, cur: Pair)
    requires Inv(w) && Carries(w, t, cur) && a.ReplyArrives? && Enabled(w, a) && w.posts[a.request].tab == t
    requires Step(w, a).tabs[t].inFlight.Some?
    ensures SendsFor(w, a, t) && !Quiet(w, t, cur)
    ensures Carries(Step(w, a), t, Sent(w, a)) && Quiet(Step(w, a), t, Sent(w, a))
  {
    hide DeliverReply, RefreshAccess, Adopt;
    var p := w.posts[a.request];
    var l0 := Closed(w, a.request).Of(t);
    var (l, o) := OnReply(l0, p.token, p.remembered, p.reply.value, a.now);
    ReplySends(w, a.request, a.now, t);
    assert p.token == cur;
    if IsGranted(p) {
      GrantedLeavesNone(l0, p, a.now);
    } else {
      FailureMoves(l0, p.token, p.remembered, p.reply.value, a.now);
    }
  }

  lemma GrantedLeavesNone(l: Local, p: Post, now: nat)
    requires IsGranted(p)
    ensures var (l', o) := OnReply(l, p.token, p.remembered, p.reply.value, now);
            l'.tab.inFlight.None? && !o.Posts?
  {
  }

  lemma OtherReplyChainStep(w: World, a: Action, t: TabId, cur: Pair)
    requires Inv(w) && Carries(w, t, cur) && a.ReplyArrives? && Enabled(w, a) && w.posts[a.request].tab != t
    ensures !SendsFor(w, a, t) && Carries(Step(w, a), t, cur)
    ensures Quiet(w, t, cur) && !OthersChange(w, a, t) ==> Quiet(Step(w, a), t, cur)
  {
    hide OnReply, DeliverReply;
    ReplySends(w, a.request, a.now, t);
  }

  lemma OtherChainStep(w: World, a: Action, t: TabId, cur: Pair)
    requires Inv(w) && Carries(w, t, cur) && !(Enabled(w, a) && (a.Renew? || a.ReplyArrives?))
    ensures Carries(Step(w, a), t, cur)
    ensures Quiet(w, t, cur) && !OthersChange(w, a, t) ==> Quiet(Step(w, a), t, cur)
  {
    hide RefreshAccess, OnReply, Bootstrap, Inv;
    StillCarries(w, a, t, cur);
  }

  lemma StillCarries(w: World, a: Action, t: TabId, cur: Pair)
    requires Inv(w) && Carries(w, t, cur) && !(Enabled(w, a) && (a.Renew? || a.ReplyArrives?))
    ensures Carries(Step(w, a), t, cur)
  {
    hide RefreshAccess, OnReply, Bootstrap;
    if Enabled(w, a) && a.Boot? {
      BootMoves(w.Of(a.tab));
    }
  }

  // ---------- How many requests ----------

  lemma ChainStarts(w: World, t: TabId, now: nat)
    requires Inv(w) && SendsFor(w, Renew(t, now), t)
    ensures var w' := Step(w, Renew(t, now));
            Carries(w', t, Sent(w, Renew(t, now))) && Quiet(w', t, Sent(w, Renew(t, now)))
  {
    hide RefreshAccess;
    if t in w.tabs {
      RefreshMoves(w.Of(t), now);
      RenewSends(w, t, now, t);
    }
  }

  lemma {:induction false} ChainTally(w: World, acts: seq<Action>, t: TabId, i: nat, j: nat)
    requires i < j <= |acts| && Inv(w) && Chain(w, acts, t, i, j)
    ensures var tokens := Tokens(w, acts, t, i, j);
            && tokens != []
            && var last := tokens[|tokens| - 1];
               && Carries(After(w, acts, j), t, last)
               && |tokens| <= Changes(w, acts, t, i + 1, j) + (if Quiet(After(w, acts, j), t, last) then 1 else 0)
  {
    hide Inv, Step, SendsFor, OthersChange, Carries, Quiet;
    InvOverRuns(w, acts, j - 1);
    var before := After(w, acts, j - 1);
    if j == i + 1 {
      ChainStarts(before, t, acts[i].now);
      assert Tokens(w, acts, t, i, i) == [];
    } else {
      ChainTally(w, acts, t, i, j - 1);
      var tokens := Tokens(w, acts, t, i, j - 1);
      assert t in After(w, acts, j).tabs && After(w, acts, j).tabs[t].inFlight.Some?;
      ChainStep(before, acts[j - 1], t, tokens[|tokens| - 1]);
    }
  }

  // A chain sends at most one POST more than others change the vault or the
  // tab's pair while it runs, so it ends when they stop.
  lemma ChainIsBounded(w: World, acts: seq<Action>, t: TabId, i: nat, j: nat)
    requires i < j <= |acts| && Inv(w) && Chain(w, acts, t, i, j)
    ensures |Tokens(w, acts, t, i, j)| <= 1 + Changes(w, acts, t, i + 1, j)
  {
    hide Inv, Step, SendsFor, OthersChange, Carries, Quiet, Chain;
    ChainTally(w, acts, t, i, j);
  }

  // ---------- Never the same token twice ----------

  function Elements(tokens: seq<Pair>): set<Pair> { set x | x in tokens }

  // Of the tokens S the chain has posted, the tab can hold only the last one,
  // and the vault's entry for its account is one of them only if the tab holds it.
  predicate Behind(w: World, t: TabId, S: set<Pair>, cur: Pair) {
    && t in w.tabs
    && (forall s | s in S :: Known(w, s))
    && (w.tabs[t].held.Some? && w.tabs[t].held.value in S ==> w.tabs[t].held.value == cur)
    && (forall s | s in S && CurrentUser(w.tabs[t]) == Some(s.user) && InVault(w.vault, s) ::
          w.tabs[t].held == Some(s))
  }

  // The page with the list puts a token of S back over a newer entry: it picks one it
  // listed before.
  predicate WritesBack(w: World, a: Action, S: set<Pair>) {
    a.Pick? && Enabled(w, a) && a.pair in S && a.pair.user in w.vault && w.vault[a.pair.user] != a.pair
  }

  // Whatever else a step puts into the vault is new or not of S.
  predicate VaultAvoids(w: World, w': World, S: set<Pair>) {
    forall u | u in w'.vault ::
      (u in w.vault && w'.vault[u] == w.vault[u]) || !Known(w, w'.vault[u]) || w'.vault[u] !in S
  }

  lemma VaultAvoidsPosted(w: World, a: Action, S: set<Pair>)
    requires Inv(w) && !WritesBack(w, a, S)
    ensures VaultAvoids(w, Step(w, a), S)
  {
    hide Inv, Known;
    if !a.Pick? {
      hide Step;
      VaultGrows(w, a);
    }
  }

  lemma BehindElsewhere(w: World, w': World, t: TabId, S: set<Pair>, cur: Pair)
    requires Behind(w, t, S, cur) && VaultAvoids(w, w', S) && t in w'.tabs
    requires w'.tabs[t].held == w.tabs[t].held || w'.tabs[t].held.None?
    requires forall s | s in S :: Known(w', s)
    ensures Behind(w', t, S, cur)
  {
  }

  // The tab takes up a pair that is not in S, and the vault agrees with it.
  lemma BehindNewPair(w: World, w': World, t: TabId, S: set<Pair>, cur: Pair, pair: Pair)
    requires Behind(w, t, S, cur) && t in w'.tabs && w'.tabs[t].held == Some(pair) && pair !in S
    requires pair.user in w'.vault ==> w'.vault[pair.user] == pair
    requires forall s | s in S :: Known(w', s)
    ensures Behind(w', t, S, cur)
  {
  }

  lemma ChainStepBehind(w: World, a: Action, t: TabId, S: set<Pair>, cur: Pair)
    requires Inv(w) && Carries(w, t, cur) && cur in S && Behind(w, t, S, cur)
    requires t in Step(w, a).tabs && Step(w, a).tabs[t].inFlight.Some? && !WritesBack(w, a, S)
    ensures if SendsFor(w, a, t) then Sent(w, a) !in S && Behind(Step(w, a), t, S + {Sent(w, a)}, Sent(w, a))
            else Behind(Step(w, a), t, S, cur)
  {
    hide Step, Known, SendsFor, Carries, Inv, VaultAvoids, Behind, Bootstrap, WritesBack;
    var w' := Step(w, a);
    forall s | s in S ensures Known(w', s) {
      PostedIsKnown(w, t, S, cur, s);
      KnownForGood(w, a, s);
    }
    VaultAvoidsPosted(w, a, S);
    PostedIsKnown(w, t, S, cur, cur);
    if SendsFor(w, a, t) {
      RepeatIsNew(w, a, t, S, cur);
    } else {
      HeldWithoutSend(w, a, t, S, cur);
      if w'.tabs[t].held == w.tabs[t].held || w'.tabs[t].held.None? {
        PostedIsKnown(w, t, S, cur, cur);
        BehindElsewhere(w, w', t, S, cur);
      } else {
        BehindNewPair(w, w', t, S, cur, w'.tabs[t].held.value);
      }
    }
  }

  lemma PostedIsKnown(w: World, t: TabId, S: set<Pair>, cur: Pair, s: Pair)
    requires Behind(w, t, S, cur) && s in S
    ensures t in w.tabs && Known(w, s)
  {
  }

  // A pair the vault holds for the tab's account, but the tab does not, has not
  // been posted by this chain.
  lemma UnseenIsNotPosted(w: World, t: TabId, S: set<Pair>, cur: Pair)
    requires Behind(w, t, S, cur) && Unseen(w.Of(t)).Some?
    requires w.vault[w.tabs[t].held.value.user].user == w.tabs[t].held.value.user
    ensures Unseen(w.Of(t)).value !in S
  {
  }

  lemma RefreshHolds(l: Local, now: nat)
    ensures RefreshAccess(l, now).0 == Reconcile(l)
    ensures Reconcile(l).tab.held == (if Unseen(l).Some? then Unseen(l) else l.tab.held)
  {
  }

  // What a failed request is repeated with: a pair of the vault this tab had not
  // seen, or the pair it holds when that is not the one just posted.
  lemma RepeatHolds(l: Local, token: Pair, remembered: bool, reply: Reply, now: nat)
    requires forall u | u in l.vault :: l.vault[u].user == u
    requires !reply.Granted? && l.tab.inFlight.None?
    ensures var o := OnReply(l, token, remembered, reply, now).1;
            o.Posts? ==> if Unseen(l).Some? then o.token == Unseen(l).value
                         else l.tab.held == Some(o.token) && o.token != token
  {
    hide RefreshAccess, Reconcile;
    RefreshHolds(l, now);
    RefreshHolds(Reconcile(l), now);
    RefreshMoves(l, now);
    ReconcileMoves(l);
    RefreshMoves(Reconcile(l), now);
  }

  lemma RepeatIsNew(w: World, a: Action, t: TabId, S: set<Pair>, cur: Pair)
    requires Inv(w) && Carries(w, t, cur) && cur in S && Behind(w, t, S, cur) && SendsFor(w, a, t)
    requires t in Step(w, a).tabs && Step(w, a).tabs[t].inFlight.Some?
    requires forall s | s in S :: Known(Step(w, a), s)
    ensures Sent(w, a) !in S && Behind(Step(w, a), t, S + {Sent(w, a)}, Sent(w, a))
  {
    hide OnReply, DeliverReply, RefreshAccess, Reconcile, Adopt, Inv;
    ChainStep(w, a, t, cur);
    if Enabled(w, a) && a.Renew? {
      RenewChainStep(w, a, t, cur);
    } else if Enabled(w, a) && a.ReplyArrives? {
      ReplyRepeatIsNew(w, a, t, S, cur);
    } else {
      OtherActionsSendNothing(w, a, t);
    }
  }

  lemma ReplyRepeatIsNew(w: World, a: Action, t: TabId, S: set<Pair>, cur: Pair)
    requires Inv(w) && Carries(w, t, cur) && cur in S && Behind(w, t, S, cur) && SendsFor(w, a, t)
    requires Enabled(w, a) && a.ReplyArrives?
    requires Quiet(Step(w, a), t, Sent(w, a))
    requires forall s | s in S :: Known(Step(w, a), s)
    ensures Sent(w, a) !in S && Behind(Step(w, a), t, S + {Sent(w, a)}, Sent(w, a))
  {
    hide OnReply, DeliverReply, RefreshAccess, Reconcile, Adopt;
    ReplySends(w, a.request, a.now, t);
    var p := w.posts[a.request];
    var l0 := Closed(w, a.request).Of(t);
    assert p.tab == t && p.token == cur;
    if IsGranted(p) {
      GrantedLeavesNone(l0, p, a.now);
    } else {
      RepeatHolds(l0, p.token, p.remembered, p.reply.value, a.now);
      assert Unseen(l0) == Unseen(w.Of(t));
      if Unseen(w.Of(t)).Some? {
        UnseenIsNotPosted(w, t, S, cur);
      }
      assert Known(w, Sent(w, a));
      KnownForGood(w, a, Sent(w, a));
    }
  }

  // Without a repeated request the tab keeps its pair, gives it up, or takes up
  // one the chain has not posted and the vault does not contradict.
  lemma HeldWithoutSend(w: World, a: Action, t: TabId, S: set<Pair>, cur: Pair)
    requires Inv(w) && Carries(w, t, cur) && cur in S && Behind(w, t, S, cur)
    requires t in Step(w, a).tabs && Step(w, a).tabs[t].inFlight.Some?
    requires !SendsFor(w, a, t)
    ensures var w' := Step(w, a);
            var held := w'.tabs[t].held;
            held == w.tabs[t].held || held.None? ||
            (held.value !in S && (held.value.user in w'.vault ==> w'.vault[held.value.user] == held.value))
  {
    hide OnReply, DeliverReply, RefreshAccess;
    if Enabled(w, a) {
      if a.Renew? {
        RenewTakesUp(w, a, t, S, cur);
      } else if a.ReplyArrives? {
        if w.posts[a.request].tab == t {
          OwnReplyChainStep(w, a, t, cur);
        } else {
          ReplySends(w, a.request, a.now, t);
        }
      }
    }
  }

  lemma RenewTakesUp(w: World, a: Action, t: TabId, S: set<Pair>, cur: Pair)
    requires Inv(w) && Carries(w, t, cur) && Behind(w, t, S, cur) && a.Renew? && Enabled(w, a)
    ensures var w' := Step(w, a);
            t in w'.tabs &&
            var held := w'.tabs[t].held;
            held == w.tabs[t].held ||
            (held.Some? && held.value !in S &&
             (held.value.user in w'.vault ==> w'.vault[held.value.user] == held.value))
  {
    hide OnReply, DeliverReply, RefreshAccess, Reconcile;
    RefreshMoves(w.Of(a.tab), a.now);
    RefreshHolds(w.Of(a.tab), a.now);
    if a.tab == t && Unseen(w.Of(t)).Some? {
      UnseenIsNotPosted(w, t, S, cur);
    }
  }

  predicate Distinct(tokens: seq<Pair>) {
    forall m, n | 0 <= m < n < |tokens| :: tokens[m] != tokens[n]
  }

  // The tokens a living chain has posted: the last one is outstanding, and none
  // of them can come round again by itself.
  predicate Posted(w: World, t: TabId, tokens: seq<Pair>) {
    && tokens != [] && Distinct(tokens)
    && Carries(w, t, tokens[|tokens| - 1])
    && Behind(w, t, Elements(tokens), tokens[|tokens| - 1])
  }

  lemma PostedStep(w: World, a: Action, t: TabId, tokens: seq<Pair>)
    requires Inv(w) && Posted(w, t, tokens)
    requires t in Step(w, a).tabs && Step(w, a).tabs[t].inFlight.Some? && !WritesBack(w, a, Elements(tokens))
    ensures Posted(Step(w, a), t, if SendsFor(w, a, t) then tokens + [Sent(w, a)] else tokens)
  {
    hide Inv, Step, Carries, Quiet, Behind, WritesBack;
    var cur := tokens[|tokens| - 1];
    ChainStep(w, a, t, cur);
    ChainStepBehind(w, a, t, Elements(tokens), cur);
    if SendsFor(w, a, t) {
      assert Elements(tokens + [Sent(w, a)]) == Elements(tokens) + {Sent(w, a)};
    }
  }

  lemma {:induction false} ChainPosted(w: World, acts: seq<Action>, t: TabId, i: nat, j: nat)
    requires i < j <= |acts| && Inv(w) && Chain(w, acts, t, i, j)
    requires forall k | i < k < j ::
               !WritesBack(After(w, acts, k), acts[k], Elements(Tokens(w, acts, t, i, k)))
    ensures Posted(After(w, acts, j), t, Tokens(w, acts, t, i, j))
  {
    hide Inv, Step, SendsFor, WritesBack, Elements, Posted, After, Tokens, Chain;
    InvOverRuns(w, acts, j - 1);
    var before, a := After(w, acts, j - 1), acts[j - 1];
    ChainRuns(w, acts, t, i, j);
    OneMore(w, acts, t, i, j);
    if j == i + 1 {
      FirstIsPosted(before, t, a.now);
      FirstToken(w, acts, t, i);
    } else {
      ChainPosted(w, acts, t, i, j - 1);
      assert !WritesBack(before, a, Elements(Tokens(w, acts, t, i, j - 1)));
      PostedStep(before, a, t, Tokens(w, acts, t, i, j - 1));
    }
  }

  lemma ChainRuns(w: World, acts: seq<Action>, t: TabId, i: nat, j: nat)
    requires i < j <= |acts| && Chain(w, acts, t, i, j)
    ensures t in After(w, acts, j).tabs && After(w, acts, j).tabs[t].inFlight.Some?
    ensures if j == i + 1 then acts[i] == Renew(t, acts[i].now) && SendsFor(After(w, acts, i), acts[i], t)
            else Chain(w, acts, t, i, j - 1)
  {
    hide Step, SendsFor, After;
  }

  lemma OneMore(w: World, acts: seq<Action>, t: TabId, i: nat, j: nat)
    requires i < j <= |acts|
    ensures After(w, acts, j) == Step(After(w, acts, j - 1), acts[j - 1])
    ensures var b := After(w, acts, j - 1);
            Tokens(w, acts, t, i, j) ==
            if SendsFor(b, acts[j - 1], t) then Tokens(w, acts, t, i, j - 1) + [Sent(b, acts[j - 1])]
            else Tokens(w, acts, t, i, j - 1)
  {
    hide Step, SendsFor;
  }

  // No chain posts a token twice, unless the page with the list puts a token the chain
  // has posted back over a newer vault entry while it runs.
  lemma ChainNeverRepeats(w: World, acts: seq<Action>, t: TabId, i: nat, j: nat)
    requires i < j <= |acts| && Inv(w) && Chain(w, acts, t, i, j)
    requires forall k | i < k < j ::
               !WritesBack(After(w, acts, k), acts[k], Elements(Tokens(w, acts, t, i, k)))
    ensures Distinct(Tokens(w, acts, t, i, j))
  {
    hide Inv, Step, Chain, Distinct, Tokens;
    ChainPosted(w, acts, t, i, j);
  }

  lemma FirstToken(w: World, acts: seq<Action>, t: TabId, i: nat)
    requires i < |acts| && SendsFor(After(w, acts, i), acts[i], t)
    ensures Tokens(w, acts, t, i, i + 1) == [Sent(After(w, acts, i), acts[i])]
  {
    hide Step, After;
    assert Tokens(w, acts, t, i, i) == [];
  }

  lemma FirstIsPosted(w: World, t: TabId, now: nat)
    requires Inv(w) && SendsFor(w, Renew(t, now), t)
    ensures Posted(Step(w, Renew(t, now)), t, [Sent(w, Renew(t, now))])
  {
    hide Inv, Step, Carries, Behind;
    ChainStarts(w, t, now);
    FirstIsBehind(w, t, now);
    assert Elements([Sent(w, Renew(t, now))]) == {Sent(w, Renew(t, now))};
  }

  lemma FirstIsBehind(w: World, t: TabId, now: nat)
    requires Inv(w) && SendsFor(w, Renew(t, now), t)
    ensures var x := Sent(w, Renew(t, now));
            Behind(Step(w, Renew(t, now)), t, {x}, x)
  {
    hide RefreshAccess;
    if t in w.tabs {
      HeldIsKnown(w, t, now);
      ChainStarts(w, t, now);
      KnownForGood(w, Renew(t, now), Sent(w, Renew(t, now)));
    }
  }

  lemma HeldIsKnown(w: World, t: TabId, now: nat)
    requires Inv(w) && t in w.tabs && SendsFor(w, Renew(t, now), t)
    ensures Known(w, Sent(w, Renew(t, now)))
  {
    hide RefreshAccess;
    RefreshMoves(w.Of(t), now);
    RefreshHolds(w.Of(t), now);
    RenewSends(w, t, now, t);
  }

  // In particular while picked entries are current.
  lemma CurrentPicksNeverRepeat(w: World, acts: seq<Action>, t: TabId, i: nat, j: nat)
    requires i < j <= |acts| && Inv(w) && Chain(w, acts, t, i, j) && PicksAreCurrent(w, acts)
    ensures Distinct(Tokens(w, acts, t, i, j))
  {
    hide Inv, Step, Chain, Distinct, Tokens;
    ChainNeverRepeats(w, acts, t, i, j);
  }

  // ---------- Exactly when a token is posted again ----------

  // What the tab holds once it is settled with the vault; the tab can read it before
  // it posts.
  function Next(l: Local): Option<Pair> { Reconcile(l).tab.held }

  // Whatever makes a tab post, it posts that pair.
  lemma NextIsSent(w: World, a: Action, t: TabId)
    requires Inv(w) && SendsFor(w, a, t)
    ensures t in w.tabs && Next(w.Of(t)) == Some(Sent(w, a))
  {
    hide RefreshAccess, OnReply, Reconcile, DeliverReply;
    if Enabled(w, a) && a.Renew? {
      RenewSends(w, a.tab, a.now, t);
      RefreshMoves(w.Of(a.tab), a.now);
      RefreshHolds(w.Of(a.tab), a.now);
    } else if Enabled(w, a) && a.ReplyArrives? {
      RepliesWithNext(w, a.request, a.now, t);
    } else {
      OtherActionsSendNothing(w, a, t);
    }
  }

  lemma RepliesWithNext(w: World, n: nat, now: nat, t: TabId)
    requires Inv(w) && Enabled(w, ReplyArrives(n, now)) && SendsFor(w, ReplyArrives(n, now), t)
    ensures t in w.tabs && Next(w.Of(t)) == Some(Sent(w, ReplyArrives(n, now)))
  {
    hide RefreshAccess, OnReply, Reconcile, DeliverReply, SendsFor;
    ReplySends(w, n, now, t);
    var p, l0 := w.posts[n], Closed(w, n).Of(t);
    if IsGranted(p) {
      GrantedLeavesNone(l0, p, now);
    } else {
      RepeatHolds(l0, p.token, p.remembered, p.reply.value, now);
      RefreshHolds(w.Of(t), now);
      assert Unseen(l0) == Unseen(w.Of(t));
    }
  }

  // Step k posts nothing for tab t, or the tab's settled pair is not among the tokens it
  // posted since step i.
  predicate PostsAnew(w: World, acts: seq<Action>, t: TabId, i: nat, k: nat)
    requires i <= k < |acts|
  {
    var before := After(w, acts, k);
    SendsFor(before, acts[k], t) ==>
      t in before.tabs && Next(before.Of(t)).Some? && Next(before.Of(t)).value !in Tokens(w, acts, t, i, k)
  }

  // In any stretch of any run, the tokens a tab posts are pairwise different exactly
  // when each time it posts, what it then holds once settled is not one of them.
  lemma {:induction false} NeverRepeatsIff(w: World, acts: seq<Action>, t: TabId, i: nat, j: nat)
    requires i <= j <= |acts| && Inv(w)
    ensures Distinct(Tokens(w, acts, t, i, j)) <==> forall k | i <= k < j :: PostsAnew(w, acts, t, i, k)
  {
    hide Inv, Step, Next, After;
    if i < j {
      hide Distinct;
      NeverRepeatsIff(w, acts, t, i, j - 1);
      InvOverRuns(w, acts, j - 1);
      var before, a := After(w, acts, j - 1), acts[j - 1];
      OneMore(w, acts, t, i, j);
      if SendsFor(before, a, t) {
        NextIsSent(before, a, t);
        DistinctWithOneMore(Tokens(w, acts, t, i, j - 1), Sent(before, a));
      }
      assert PostsAnew(w, acts, t, i, j - 1) <==>
             (SendsFor(before, a, t) ==> Sent(before, a) !in Tokens(w, acts, t, i, j - 1));
    }
  }

  lemma DistinctWithOneMore(tokens: seq<Pair>, x: Pair)
    ensures Distinct(tokens + [x]) <==> Distinct(tokens) && x !in tokens
  {
    if Distinct(tokens + [x]) {
      assert forall m | 0 <= m < |tokens| :: (tokens + [x])[m] == tokens[m];
      assert (tokens + [x])[|tokens|] == x;
    }
  }

  // ---------- A stale pick repeats a token ----------

  const P0 := Pair(0, 7, 10)
  const P1 := Pair(2, 7, 15)

  // Tabs 0 and 1 hold the remembered account, tab 2 shows the list.
  function ThreeTabs(): World {
    var tab := Tab(Some(P0), None, false, false);
    World(map[0 := tab, 1 := tab, 2 := tab.(held := None)], map[7 := P0], map[], map[], {P0}, 1)
  }

  lemma ThreeTabsAreReachable()
    ensures Step(Step(ListedOnce(), OpenTab(2)), Boot(1)) == ThreeTabs()
  {
    var w := Step(ListedOnce(), OpenTab(2));
    assert w.vault.Keys == {7};
    assert Bootstrap(w.Of(1)).vault == w.vault;
  }

  const HOLDS0 := Tab(Some(P0), None, false, false)
  const HOLDS1 := Tab(Some(P1), None, false, false)
  const LISTS := Tab(None, None, false, false)

  // Both tabs post P0.
  const BOTH_POST := World(map[0 := HOLDS0.(inFlight := Some(1)), 1 := HOLDS0.(inFlight := Some(2)), 2 := LISTS],
                           map[7 := P0], map[1 := Post(0, P0, true, None), 2 := Post(1, P0, true, None)],
                           map[], {P0}, 3)

  lemma BothPost()
    ensures Step(Step(ThreeTabs(), Renew(0, 20)), Renew(1, 20)) == BOTH_POST
  {
    assert Step(ThreeTabs(), Renew(0, 20)).posts == map[1 := Post(0, P0, true, None)];
  }

  // Tab 1 is served.
  const ONE_SERVED := World(map[0 := HOLDS0.(inFlight := Some(1)), 1 := HOLDS1, 2 := LISTS],
                            map[7 := P1], map[1 := Post(0, P0, true, None)], map[], {P1}, 3)

  lemma OneServed()
    ensures Step(Step(BOTH_POST, Serve(2, 15, Issues(true))), ReplyArrives(2, 20)) == ONE_SERVED
  {
    hide Step;
    ServedOne();
    HearsOfIt();
  }

  const SERVED := BOTH_POST.(posts := BOTH_POST.posts[2 := Post(1, P0, true, Some(Granted(P1)))], live := {P1})

  lemma ServedOne()
    ensures Step(BOTH_POST, Serve(2, 15, Issues(true))) == SERVED
  {
    hide RefreshAccess, OnReply, Bootstrap, Logout, Adopt;
    assert BOTH_POST.live - {P0} + {P1} == {P1};
  }

  lemma HearsOfIt()
    ensures Step(SERVED, ReplyArrives(2, 20)) == ONE_SERVED
  {
    hide RefreshAccess, Bootstrap, Logout;
  }

  // The network fails tab 0, which goes on with the pair tab 1 put into the vault.
  const OVERTAKEN := World(map[0 := HOLDS1.(inFlight := Some(3)), 1 := HOLDS1, 2 := LISTS],
                           map[7 := P1], map[3 := Post(0, P1, true, None)], map[], {P1}, 4)

  lemma Overtaken()
    ensures Step(Step(ONE_SERVED, Serve(1, 0, Unreached)), ReplyArrives(1, 20)) == OVERTAKEN
  {
    var w := Step(ONE_SERVED, Serve(1, 0, Unreached));
    assert w.posts == map[1 := Post(0, P0, true, Some(Failed))] && w.live == {P1};
    RepeatsWith(w, 1, P0, P1);
  }

  // Tab 0's request for x fails while the vault holds y, whose access token is spent.
  lemma RepeatsWith(w: World, n: nat, x: Pair, y: Pair)
    requires w.posts == map[n := Post(0, x, true, Some(Failed))] && w.vault == map[7 := y] && n < w.next
    requires 0 in w.tabs && w.tabs[0] == Tab(Some(x), Some(n), false, false)
    requires x != y && x.user == 7 && y.user == 7 && y.expires <= 20
    ensures var w' := Step(w, ReplyArrives(n, 20));
            && w'.tabs == w.tabs[0 := Tab(Some(y), Some(w.next), false, false)] && w'.vault == w.vault
            && w'.posts == map[w.next := Post(0, y, true, None)] && w'.next == w.next + 1
            && w'.live == w.live && w'.signIns == w.signIns
  {
    assert w.posts - {n} == map[];
  }

  // The list still offers P0: picked, it goes back into the vault, and the network fails
  // tab 0 again.
  const PICKED := World(map[0 := HOLDS1.(inFlight := Some(3)), 1 := HOLDS1, 2 := HOLDS0],
                        map[7 := P0], map[3 := Post(0, P1, true, Some(Failed))], map[], {P1}, 4)

  lemma Picked()
    ensures WritesBack(OVERTAKEN, Pick(2, P0), {P0, P1})
    ensures Step(Step(OVERTAKEN, Pick(2, P0)), Serve(3, 0, Unreached)) == PICKED
  {
    hide OnReply, DeliverReply, RefreshAccess;
    var w := Step(OVERTAKEN, Pick(2, P0));
    assert w.vault == map[7 := P0];
  }

  // Its chain then posts P0 a second time.
  lemma StalePickRepeatsPost()
    ensures Step(Step(Step(Step(Step(Step(ThreeTabs(), Renew(0, 20)), Renew(1, 20)), Serve(2, 15, Issues(true))),
                           ReplyArrives(2, 20)), Serve(1, 0, Unreached)), ReplyArrives(1, 20)) == OVERTAKEN
    ensures Carries(BOTH_POST, 0, P0) && Carries(OVERTAKEN, 0, P1)
    ensures WritesBack(OVERTAKEN, Pick(2, P0), {P0, P1})
    ensures Carries(Step(Step(Step(OVERTAKEN, Pick(2, P0)), Serve(3, 0, Unreached)), ReplyArrives(3, 20)), 0, P0)
  {
    hide Step, WritesBack;
    BothPost();
    OneServed();
    Overtaken();
    Picked();
    RepeatsWith(PICKED, 3, P1, P0);
  }

  // A second request of tab 0 meets the pick first: it takes P0 up and joins. Once that
  // renewal fails the vault has nothing new for the tab, and P0 is posted again all the same.
  const JOINED := World(map[0 := HOLDS0.(inFlight := Some(3)), 1 := HOLDS1, 2 := HOLDS0],
                        map[7 := P0], map[3 := Post(0, P1, true, Some(Failed))], map[], {P1}, 4)

  lemma ListedAgain()
    ensures Step(OVERTAKEN, Pick(2, P0)) == OVERTAKEN.(tabs := OVERTAKEN.tabs[2 := HOLDS0], vault := map[7 := P0])
  {
    hide OnReply, DeliverReply, RefreshAccess;
  }

  lemma TakenUp()
    ensures Step(Step(Step(OVERTAKEN, Pick(2, P0)), Renew(0, 20)), Serve(3, 0, Unreached)) == JOINED
  {
    hide OnReply, DeliverReply, Bootstrap, Logout;
    ListedAgain();
    var w := Step(OVERTAKEN, Pick(2, P0));
    assert Step(w, Renew(0, 20)) == w.(tabs := w.tabs[0 := HOLDS0.(inFlight := Some(3))]);
  }

  lemma JoiningRepeatsPost()
    ensures Step(Step(Step(OVERTAKEN, Pick(2, P0)), Renew(0, 20)), Serve(3, 0, Unreached)) == JOINED
    ensures Unseen(JOINED.Of(0)).None? && Carries(Step(JOINED, ReplyArrives(3, 20)), 0, P0)
  {
    hide Step;
    TakenUp();
    JoinedReply();
  }

  lemma JoinedReply()
    ensures Carries(Step(JOINED, ReplyArrives(3, 20)), 0, P0)
  {
    assert JOINED.posts - {3} == map[];
  }
}
