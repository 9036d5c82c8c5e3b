// The renewal protocol as a whole: any number of tabs sharing one vault, and a
// server whose refresh tokens are single-use (portal/auth.js with
// unica/admin/internal/handler/auth.go). A step is one synchronous stretch of
// one tab or one request handled by the server.
module SessionWorld {
  import opened Options
  import opened Session

  type TabId = nat

  // ---------- The server ----------

  // What becomes of a renewal: it never reaches the server; the token is spent and
  // the account then refused (401) or the server breaks (500), so that nothing is
  // issued; or a pair is issued, whose key Redis may fail to store.
  datatype Handling = Unreached | Refuses | Breaks | Issues(stored: bool)

  class AuthServer {
    // The refresh tokens Redis holds a key for.
    var live: set<Pair>

    constructor ()
      ensures live == {}
    {
      live := {};
    }

    // A key that could not be stored is only logged: the pair goes out all the same.
    method HandleLogin(request: nat, user: UserId, expires: nat, stored: bool) returns (pair: Pair)
      modifies this
      ensures pair == Pair(request, user, expires)
      ensures live == if stored then old(live) + {pair} else old(live)
    {
      pair := Pair(request, user, expires);
      if stored {
        live := live + {pair};
      }
    }

    // The lookup and the deletion are one step: a token is exchanged once. What
    // follows the deletion may fail with the token gone.
    method HandleRefresh(request: nat, token: Pair, expires: nat, handling: Handling) returns (reply: Reply)
      requires !handling.Unreached?
      modifies this
      ensures (live, reply) == Exchange(old(live), request, token, expires, handling)
    {
      if token !in live {
        return Refused;
      }
      live := live - {token};
      if handling.Refuses? {
        return Refused;
      }
      if handling.Breaks? {
        return Failed;
      }
      var pair := Pair(request, token.user, expires);
      if handling.stored {
        live := live + {pair};
      }
      reply := Granted(pair);
    }
  }

  function Exchange(live: set<Pair>, request: nat, token: Pair, expires: nat, handling: Handling): (set<Pair>, Reply) {
    if handling.Unreached? then (live, Failed)
    else if token !in live then (live, Refused)
    else
      var pair := Pair(request, token.user, expires);
      match handling
      case Refuses => (live - {token}, Refused)
      case Issues(stored) => (if stored then live - {token} + {pair} else live - {token}, Granted(pair))
      case _ => (live - {token}, Failed)
  }

  // ---------- States and steps ----------

  // A renewal request: who sent it, what it carries, whether the account was in
  // the vault when it left, and the answer once there is one.
  datatype Post = Post(tab: TabId, token: Pair, remembered: bool, reply: Option<Reply>)

  // A sign-in the server has answered.
  datatype SignIn = SignIn(tab: TabId, pair: Pair, remember: bool)

  datatype World = World(tabs: map<TabId, Tab>, vault: Vault, posts: map<nat, Post>,
                         signIns: map<nat, SignIn>, live: set<Pair>, next: nat)
  {
    function Of(t: TabId): Local
      requires t in tabs
    {
      Local(tabs[t], vault)
    }

    function With(t: TabId, l: Local): World { this.(tabs := tabs[t := l.tab], vault := l.vault) }
  }

  datatype Action =
    | OpenTab(tab: TabId)
    | Login(tab: TabId, user: UserId, remember: bool, expires: nat, stored: bool)
    | LoginArrives(request: nat)
    | Renew(tab: TabId, now: nat)
    | Serve(request: nat, expires: nat, handling: Handling)
    | ReplyArrives(request: nat, now: nat)
    | SignOut(tab: TabId)
    | DropTab(tab: TabId)
    | Boot(tab: TabId)
    | Pick(tab: TabId, pair: Pair)
    | ForgetEntry(user: UserId)
    | Announce(tab: TabId)

  // A renewal that decided to post puts its request on the wire.
  function Send(w: World, t: TabId, o: Outcome): World
    requires t in w.tabs
  {
    if o.Posts? then
      w.(tabs := w.tabs[t := w.tabs[t].(inFlight := Some(w.next))],
         posts := w.posts[w.next := Post(t, o.token, o.remembered, None)],
         next := w.next + 1)
    else w
  }

  // A page adopts a listed or the only account while it has no renewal in flight: the
  // page with the list never renews, and the others bootstrap before any request. Only
  // what has reached the vault can be listed.
  predicate Enabled(w: World, a: Action) {
    match a
    case OpenTab(t) => t !in w.tabs
    case LoginArrives(n) => n in w.signIns && w.signIns[n].tab in w.tabs
    case Serve(n, _, _) => n in w.posts && w.posts[n].reply.None?
    case ReplyArrives(n, _) => n in w.posts && w.posts[n].reply.Some? && w.posts[n].tab in w.tabs
    case ForgetEntry(_) => true
    case Boot(t) => t in w.tabs && w.tabs[t].inFlight.None?
    case Pick(t, pair) => t in w.tabs && w.tabs[t].inFlight.None? && Known(w, pair)
    case _ => a.tab in w.tabs
  }

  function Step(w: World, a: Action): World {
    if !Enabled(w, a) then w else
    match a
    case OpenTab(t) => w.(tabs := w.tabs[t := Tab(None, None, false, false)])
    case Login(t, user, remember, expires, stored) =>
      var pair := Pair(w.next, user, expires);
      w.(signIns := w.signIns[w.next := SignIn(t, pair, remember)],
         live := if stored then w.live + {pair} else w.live, next := w.next + 1)
    case LoginArrives(n) => DeliverLogin(w, n)
    case Renew(t, now) =>
      var (l, o) := RefreshAccess(w.Of(t), now);
      Send(w.With(t, l), t, o)
    case Serve(n, expires, handling) => ServeRenewal(w, n, expires, handling)
    case ReplyArrives(n, now) => DeliverReply(w, n, now)
    case SignOut(t) => w.With(t, Logout(w.Of(t)))
    case DropTab(t) => w.With(t, Drop(w.Of(t)))
    case Boot(t) => w.With(t, Bootstrap(w.Of(t)))
    case Pick(t, pair) => w.With(t, Adopt(w.Of(t), pair, false))
    case ForgetEntry(u) => w.(vault := Forget(w.vault, u))
    case Announce(t) => w.(tabs := w.tabs[t := w.tabs[t].(lost := true, announced := true)])
  }

  function DeliverLogin(w: World, n: nat): World
    requires Enabled(w, LoginArrives(n))
  {
    var s := w.signIns[n];
    w.With(s.tab, Adopt(w.Of(s.tab), s.pair, s.remember)).(signIns := w.signIns - {n})
  }

  function ServeRenewal(w: World, n: nat, expires: nat, handling: Handling): World
    requires Enabled(w, Serve(n, expires, handling))
  {
    var (live, reply) := Exchange(w.live, n, w.posts[n].token, expires, handling);
    w.(live := live, posts := w.posts[n := w.posts[n].(reply := Some(reply))])
  }

  function DeliverReply(w: World, n: nat, now: nat): World
    requires Enabled(w, ReplyArrives(n, now))
  {
    var p := w.posts[n];
    var (l, o) := OnReply(w.Of(p.tab), p.token, p.remembered, p.reply.value, now);
    Send(w.With(p.tab, l).(posts := w.posts - {n}), p.tab, o)
  }

  // ---------- The invariant ----------

  // A pair that has reached a tab or the vault; one still on its way back from
  // the server is known to nobody.
  predicate Known(w: World, p: Pair) {
    p.id < w.next && p.id !in w.posts && p.id !in w.signIns
  }

  // Every stored pair has arrived, and sits under its own user.
  predicate Settled(w: World) {
    && (forall u | u in w.vault :: w.vault[u].user == u && Known(w, w.vault[u]))
    && (forall t | t in w.tabs && w.tabs[t].held.Some? :: Known(w, w.tabs[t].held.value))
    && (forall n | n in w.posts :: Known(w, w.posts[n].token))
  }

  // What is on its way back from the server is new and unique.
  predicate PendingFresh(w: World) {
    && (forall n | n in w.posts :: n < w.next && n !in w.signIns)
    && (forall n | n in w.signIns :: n < w.next && w.signIns[n].pair.id == n)
    && (forall n | n in w.posts && IsGranted(w.posts[n]) ::
          w.posts[n].reply.value.pair.id == n && w.posts[n].reply.value.pair.user == w.posts[n].token.user)
    && (forall p | p in w.live :: p.id < w.next)
    && (forall p | p in w.live && p.id in w.posts :: w.posts[p.id].reply == Some(Granted(p)))
  }

  predicate IsGranted(p: Post) { p.reply.Some? && p.reply.value.Granted? }

  // An answered exchange has spent its token; a refusal was for a spent one. No two
  // answers grant a renewal of one token.
  predicate AnsweredSpent(w: World) {
    && (forall n | n in w.posts && w.posts[n].reply.Some? && !w.posts[n].reply.value.Failed? ::
          w.posts[n].token !in w.live)
    && (forall m, n | m in w.posts && n in w.posts && m != n && IsGranted(w.posts[m]) && IsGranted(w.posts[n]) ::
          w.posts[m].token != w.posts[n].token)
  }

  // At most one POST outstanding per tab, and the tab knows about it.
  predicate OneRequestPerTab(w: World) {
    && (forall n | n in w.posts :: w.posts[n].tab in w.tabs && w.tabs[w.posts[n].tab].inFlight == Some(n))
    && (forall t | t in w.tabs && w.tabs[t].inFlight.Some? ::
          w.tabs[t].inFlight.value in w.posts && w.posts[w.tabs[t].inFlight.value].tab == t)
  }

  predicate Inv(w: World) {
    Settled(w) && PendingFresh(w) && AnsweredSpent(w) && OneRequestPerTab(w)
  }

  // ---------- The vault ----------

  // The accepted renewal of p is in flight in a tab that recorded the account as
  // remembered.
  predicate RenewedInFlight(w: World, p: Pair) {
    exists n | n in w.posts :: w.posts[n].token == p && Renews(w, n)
  }

  predicate Renews(w: World, n: nat)
    requires n in w.posts
  {
    w.posts[n].remembered && IsGranted(w.posts[n]) && w.posts[n].reply.value.pair in w.live
  }

  predicate Backed(w: World, p: Pair) { p in w.live || RenewedInFlight(w, p) }

  predicate VaultBacked(w: World) {
    forall u | u in w.vault :: Backed(w, w.vault[u])
  }

  // A renewal that left while its account was not in the vault carries a token
  // the vault does not hold.
  predicate UnrememberedElsewhere(w: World) {
    forall n | n in w.posts && !w.posts[n].remembered ::
      w.posts[n].token.user in w.vault ==> w.vault[w.posts[n].token.user] != w.posts[n].token
  }

  // The tokens a step of the server leaves without a future: one that is spent with
  // nothing accepted in return, and one that is handed out without being stored.
  function Dooms(w: World, a: Action): set<Pair> {
    if !Enabled(w, a) then {}
    else match a
      case Login(_, user, _, expires, stored) => if stored then {} else {Pair(w.next, user, expires)}
      case Serve(n, expires, handling) =>
        var token := w.posts[n].token;
        if token !in w.live || handling.Unreached? || handling == Issues(true) then {}
        else if handling.Issues? then {token, Pair(n, token.user, expires)}
        else {token}
      case _ => {}
  }

  // What the doomed set and the server agree on: a doomed token is neither accepted
  // nor renewed by an accepted pair, and everything else on its way back or in the
  // vault has a future.
  predicate DoomedApart(w: World, doomed: set<Pair>) {
    && (forall p | p in doomed :: p.id < w.next && p !in w.live)
    && (forall p | p in doomed && p.id in w.posts :: w.posts[p.id].reply == Some(Granted(p)))
    && (forall n | n in w.signIns :: w.signIns[n].pair in w.live || w.signIns[n].pair in doomed)
    && (forall n | n in w.posts && IsGranted(w.posts[n]) ::
          (w.posts[n].token in doomed) == (w.posts[n].reply.value.pair in doomed)
          && (w.posts[n].reply.value.pair in w.live) == (w.posts[n].reply.value.pair !in doomed))
  }

  predicate VaultBackedOr(w: World, doomed: set<Pair>) {
    forall u | u in w.vault :: Backed(w, w.vault[u]) || w.vault[u] in doomed
  }

  // The one step of a page that can bring back a stale pair is picking an entry
  // from a list of accounts: the entry must still be what the vault holds for
  // that account, or the account must have left the vault.
  predicate Current(w: World, a: Action) {
    a.Pick? && a.pair.user in w.vault ==> w.vault[a.pair.user] == a.pair
  }

  const START := World(map[], map[], map[], map[], {}, 0)
}
