// The Chatwoot step of onboarding (identity/tenants_onboarding.go): an account, the
// user that owns it and an inbox, none of which can be obtained twice, so that each is
// stored before the next call and the stored block drives the next run.
module Onboarding {
  import opened Options

  type Line = string
  type Email = string

  // The "chatwoot" key of a line's config_json; an id of 0 and an empty token are unset.
  datatype Block = Block(account: nat, inbox: nat, token: string)

  // Chatwoot's objects. A user's email is taken for good once the user exists.
  datatype Chatwoot = Chatwoot(accounts: set<nat>, users: map<Email, nat>, links: set<(nat, nat)>,
                               inboxes: set<nat>, next: nat)

  // `blocks` are the blocks that can be read, `columns` the denormalised account ids.
  datatype World = World(blocks: map<Line, Block>, columns: map<Line, nat>, chatwoot: Chatwoot)

  // The outcomes of a run's calls; one that fails has no effect. `token` is the access
  // token the creation of the user answers with, which some deployments leave empty.
  datatype Calls = Calls(
    configured: bool, canRead: bool, createAccount: bool, storeAccount: bool, setColumn: bool,
    createUser: bool, token: string, link: bool, storeToken: bool, createInbox: bool, storeInbox: bool)

  datatype Reason =
    | Fine | NotConfigured | ReadFailed | AccountFailed | AccountNotStored
    | UserFailed | TokenNotStored | LinkFailed | NoToken | InboxFailed | InboxNotStored

  datatype Answer = Answer(configured: bool, created: bool, reason: Reason)

  // ---------- The calls ----------

  function WithAccount(w: World): World {
    w.(chatwoot := w.chatwoot.(accounts := w.chatwoot.accounts + {w.chatwoot.next}, next := w.chatwoot.next + 1))
  }

  function WithUser(w: World, email: Email, account: nat, linked: bool): World {
    var u := w.chatwoot.next;
    w.(chatwoot := w.chatwoot.(users := w.chatwoot.users[email := u], next := u + 1,
                               links := if linked then w.chatwoot.links + {(account, u)} else w.chatwoot.links))
  }

  function WithInbox(w: World): World {
    w.(chatwoot := w.chatwoot.(inboxes := w.chatwoot.inboxes + {w.chatwoot.next}, next := w.chatwoot.next + 1))
  }

  function Stored(w: World, line: Line, block: Block): World { w.(blocks := w.blocks[line := block]) }

  function WithColumn(w: World, line: Line, account: nat, ok: bool): World {
    if ok then w.(columns := w.columns[line := account]) else w
  }

  // ---------- The steps ----------

  function CompleteInbox(w: World, line: Line, block: Block, created: bool, c: Calls): (World, Answer) {
    if block.inbox != 0 then (w, Answer(true, created, Fine))
    else if !c.createInbox || block.token == "" then (w, Answer(false, created, InboxFailed))
    else
      var w1 := WithInbox(w);
      if !c.storeInbox then (w1, Answer(false, true, InboxNotStored))
      else (Stored(w1, line, block.(inbox := w.chatwoot.next)), Answer(true, true, Fine))
  }

  function Complete(w: World, line: Line, email: Email, block: Block, created: bool, c: Calls): (World, Answer) {
    if block.token != "" then CompleteInbox(w, line, block, created, c)
    else if !c.createUser || email in w.chatwoot.users then (w, Answer(false, created, UserFailed))
    else
      var w1 := WithUser(w, email, block.account, c.link);
      if !c.storeToken then (w1, Answer(false, true, TokenNotStored))
      else
        var b := block.(token := c.token);
        var w2 := Stored(w1, line, b);
        if !c.link then (w2, Answer(false, true, LinkFailed))
        else if c.token == "" then (w2, Answer(false, true, NoToken))
        else CompleteInbox(w2, line, b, true, c)
  }

  function Ensure(w: World, line: Line, email: Email, c: Calls): (World, Answer) {
    if !c.configured then (w, Answer(false, false, NotConfigured))
    else if !c.canRead then (w, Answer(false, false, ReadFailed))
    else if line in w.blocks then
      var account := w.blocks[line].account;
      var skewed := line !in w.columns || w.columns[line] != account;
      Complete(WithColumn(w, line, account, skewed && c.setColumn), line, email, w.blocks[line], false, c)
    else if !c.createAccount then (w, Answer(false, false, AccountFailed))
    else
      var w1 := WithAccount(w);
      var block := Block(w.chatwoot.next, 0, "");
      if !c.storeAccount then (w1, Answer(false, true, AccountNotStored))
      else Complete(WithColumn(Stored(w1, line, block), line, block.account, c.setColumn), line, email, block, true, c)
  }

  // ---------- The handler ----------

  class TenantHandler {
    var blocks: map<Line, Block>
    var columns: map<Line, nat>
    var chatwoot: Chatwoot

    constructor (blocks: map<Line, Block>, columns: map<Line, nat>, chatwoot: Chatwoot)
      ensures State() == World(blocks, columns, chatwoot)
    {
      this.blocks, this.columns, this.chatwoot := blocks, columns, chatwoot;
    }

    ghost function State(): World
      reads this
    {
      World(blocks, columns, chatwoot)
    }

    // The user with its access token, which is offered this once; `linked` is false when
    // the user exists and is not a member of the account.
    method EnsureAgent(account: nat, email: Email, c: Calls) returns (agent: Option<string>, linked: bool)
      modifies this`chatwoot
      ensures agent == if !c.createUser || email in old(chatwoot).users then None else Some(c.token)
      ensures agent.None? ==> State() == old(State())
      ensures agent.Some? ==> State() == WithUser(old(State()), email, account, c.link) && linked == c.link
    {
      if !c.createUser || email in chatwoot.users {
        return None, false;
      }
      var u := chatwoot.next;
      chatwoot := chatwoot.(users := chatwoot.users[email := u], next := u + 1);
      if c.link {
        chatwoot := chatwoot.(links := chatwoot.links + {(account, u)});
      }
      return Some(c.token), c.link;
    }

    method CompleteChatwootBinding(line: Line, email: Email, stored: Block, created: bool, c: Calls) returns (a: Answer)
      modifies this
      ensures (State(), a) == Complete(old(State()), line, email, stored, created, c)
    {
      var block := stored;
      var made := created;
      if block.token == "" {
        var agent, linked := EnsureAgent(block.account, email, c);
        if agent.None? {
          return Answer(false, made, UserFailed);
        }
        made := true;
        block := block.(token := agent.value);
        if !c.storeToken {
          return Answer(false, made, TokenNotStored);
        }
        blocks := blocks[line := block];
        if !linked {
          return Answer(false, made, LinkFailed);
        }
        if agent.value == "" {
          return Answer(false, made, NoToken);
        }
      }
      if block.inbox == 0 {
        if !c.createInbox || block.token == "" {
          return Answer(false, made, InboxFailed);
        }
        var inbox := chatwoot.next;
        chatwoot := chatwoot.(inboxes := chatwoot.inboxes + {inbox}, next := inbox + 1);
        made := true;
        block := block.(inbox := inbox);
        if !c.storeInbox {
          return Answer(false, made, InboxNotStored);
        }
        blocks := blocks[line := block];
      }
      a := Answer(true, made, Fine);
    }

    method EnsureChatwoot(line: Line, email: Email, c: Calls) returns (a: Answer)
      modifies this
      ensures (State(), a) == Ensure(old(State()), line, email, c)
    {
      hide Complete;
      if !c.configured {
        return Answer(false, false, NotConfigured);
      }
      if !c.canRead {
        return Answer(false, false, ReadFailed);
      }
      if line in blocks {
        if line !in columns || columns[line] != blocks[line].account {
          if c.setColumn {
            columns := columns[line := blocks[line].account];
          }
        }
        a := CompleteChatwootBinding(line, email, blocks[line], false, c);
        return;
      }
      if !c.createAccount {
        return Answer(false, false, AccountFailed);
      }
      var account := chatwoot.next;
      chatwoot := chatwoot.(accounts := chatwoot.accounts + {account}, next := account + 1);
      var block := Block(account, 0, "");
      if !c.storeAccount {
        return Answer(false, true, AccountNotStored);
      }
      blocks := blocks[line := block];
      if c.setColumn {
        columns := columns[line := account];
      }
      a := CompleteChatwootBinding(line, email, block, true, c);
    }
  }

  // ---------- One run ----------

  // Ids are drawn in order from 1 on.
  ghost predicate Fresh(w: World) {
    && w.chatwoot.next >= 1
    && (forall id :: id in w.chatwoot.accounts ==> id < w.chatwoot.next)
    && (forall id :: id in w.chatwoot.inboxes ==> id < w.chatwoot.next)
  }

  predicate HasInbox(w: World, line: Line) { line in w.blocks && w.blocks[line].inbox != 0 }

  predicate HasToken(w: World, line: Line) { line in w.blocks && w.blocks[line].token != "" }

  // The blocks of other lines, and what a block already holds, stay.
  ghost predicate BlocksGrow(w: World, w': World, line: Line) {
    && (forall l :: l != line ==>
          (l in w'.blocks <==> l in w.blocks) && (l in w.blocks ==> w'.blocks[l] == w.blocks[l]))
    && (line in w.blocks ==> line in w'.blocks && w'.blocks[line].account == w.blocks[line].account)
    && (HasInbox(w, line) ==> HasInbox(w', line) && w'.blocks[line].inbox == w.blocks[line].inbox)
    && (HasToken(w, line) ==> HasToken(w', line) && w'.blocks[line].token == w.blocks[line].token)
    && w.chatwoot.users.Keys <= w'.chatwoot.users.Keys
  }

  // One account or inbox more when `more`, the same ones otherwise.
  predicate Gains(a: set<nat>, b: set<nat>, more: bool) {
    if more then |b| == |a| + 1 && a < b else b == a
  }

  lemma InboxStep(w: World, line: Line, block: Block, created: bool, c: Calls)
    requires Fresh(w) && line in w.blocks && w.blocks[line] == block
    ensures var (w', a) := CompleteInbox(w, line, block, created, c);
            && Fresh(w') && BlocksGrow(w, w', line) && w'.chatwoot.accounts == w.chatwoot.accounts
            && w'.chatwoot.users == w.chatwoot.users && line in w'.blocks && w'.blocks[line].token == block.token
            && Gains(w.chatwoot.inboxes, w'.chatwoot.inboxes,
                     a.reason.InboxNotStored? || (HasInbox(w', line) && !HasInbox(w, line)))
            && (a.reason.InboxNotStored? ==> !HasInbox(w', line)) && !a.reason.AccountNotStored?
            && (a.configured ==> HasInbox(w', line) && (block.token != "" || block.inbox != 0))
  {
    assert w.chatwoot.next !in w.chatwoot.inboxes;
  }

  lemma GrowsFromItself(w: World, line: Line)
    ensures BlocksGrow(w, w, line)
  {
  }

  lemma GrowChains(a: World, b: World, c: World, line: Line)
    requires BlocksGrow(a, b, line) && BlocksGrow(b, c, line)
    ensures BlocksGrow(a, c, line)
  {
  }

  // The user, and its token in the block, which had none.
  lemma TokenStep(w: World, line: Line, email: Email, block: Block, c: Calls)
    requires Fresh(w) && line in w.blocks && w.blocks[line] == block && block.token == "" && email !in w.chatwoot.users
    ensures var w1 := WithUser(w, email, block.account, c.link);
            var w2 := Stored(w1, line, block.(token := c.token));
            && Fresh(w1) && Fresh(w2) && BlocksGrow(w, w1, line) && BlocksGrow(w, w2, line)
            && w1.chatwoot == w2.chatwoot && w1.blocks == w.blocks
            && w2.blocks == w.blocks[line := block.(token := c.token)]
            && w2.chatwoot.accounts == w.chatwoot.accounts && w2.chatwoot.inboxes == w.chatwoot.inboxes
            && w2.chatwoot.users.Keys == w.chatwoot.users.Keys + {email}
  {
  }

  // The new account in a block of its own.
  lemma AccountStep(w: World, line: Line, repair: bool)
    requires Fresh(w) && line !in w.blocks
    ensures var block := Block(w.chatwoot.next, 0, "");
            var w2 := WithColumn(Stored(WithAccount(w), line, block), line, block.account, repair);
            && Fresh(w2) && BlocksGrow(w, w2, line) && w2.blocks == w.blocks[line := block]
            && w2.chatwoot.inboxes == w.chatwoot.inboxes && w2.chatwoot.users == w.chatwoot.users
            && w2.chatwoot.accounts == WithAccount(w).chatwoot.accounts
  {
  }

  lemma ColumnStep(w: World, line: Line, account: nat, repair: bool)
    requires Fresh(w)
    ensures var w1 := WithColumn(w, line, account, repair);
            Fresh(w1) && BlocksGrow(w, w1, line) && w1.blocks == w.blocks && w1.chatwoot == w.chatwoot
  {
  }

  lemma CompleteStep(w: World, line: Line, email: Email, block: Block, created: bool, c: Calls)
    requires Fresh(w) && line in w.blocks && w.blocks[line] == block
    ensures var (w', a) := Complete(w, line, email, block, created, c);
            && Fresh(w') && BlocksGrow(w, w', line) && w'.chatwoot.accounts == w.chatwoot.accounts && line in w'.blocks
            && Gains(w.chatwoot.inboxes, w'.chatwoot.inboxes,
                     a.reason.InboxNotStored? || (HasInbox(w', line) && !HasInbox(w, line)))
            && (a.reason.InboxNotStored? ==> !HasInbox(w', line)) && !a.reason.AccountNotStored?
            && (a.configured ==> HasInbox(w', line) && HasToken(w', line))
            && (w'.chatwoot.users == w.chatwoot.users ||
                (email !in w.chatwoot.users && w'.chatwoot.users.Keys == w.chatwoot.users.Keys + {email}))
  {
    hide CompleteInbox, Gains, Fresh, Stored, WithUser, BlocksGrow;
    if block.token != "" {
      InboxStep(w, line, block, created, c);
    } else if c.createUser && email !in w.chatwoot.users {
      var b := block.(token := c.token);
      var w2 := Stored(WithUser(w, email, block.account, c.link), line, b);
      TokenStep(w, line, email, block, c);
      InboxStep(w2, line, b, true, c);
      GrowChains(w, w2, CompleteInbox(w2, line, b, true, c).0, line);
    }
    SameIsNoGain(w.chatwoot.inboxes);
    GrowsFromItself(w, line);
  }

  lemma SameIsNoGain(a: set<nat>)
    ensures Gains(a, a, false)
  {
  }

  // A run creates at most one account, one user and one inbox: an account exactly when
  // the line comes to have a block or the block could not be written, an inbox exactly
  // when the block comes to have one or that could not be written.
  lemma RunAfter(w: World, line: Line, email: Email, c: Calls)
    requires Fresh(w)
    ensures var (w', a) := Ensure(w, line, email, c);
            && Fresh(w') && BlocksGrow(w, w', line)
            && Gains(w.chatwoot.accounts, w'.chatwoot.accounts,
                     a.reason.AccountNotStored? || (line in w'.blocks && line !in w.blocks))
            && Gains(w.chatwoot.inboxes, w'.chatwoot.inboxes,
                     a.reason.InboxNotStored? || (HasInbox(w', line) && !HasInbox(w, line)))
            && (a.reason.AccountNotStored? ==> line !in w'.blocks) && (a.reason.InboxNotStored? ==> !HasInbox(w', line))
            && (w'.chatwoot.users == w.chatwoot.users ||
                (email !in w.chatwoot.users && w'.chatwoot.users.Keys == w.chatwoot.users.Keys + {email}))
  {
    hide Complete, Gains, Fresh, BlocksGrow, WithColumn, Stored, WithAccount;
    SameIsNoGain(w.chatwoot.inboxes);
    SameIsNoGain(w.chatwoot.accounts);
    GrowsFromItself(w, line);
    if line in w.blocks {
      var block := w.blocks[line];
      var skewed := line !in w.columns || w.columns[line] != block.account;
      var w1 := WithColumn(w, line, block.account, skewed && c.setColumn);
      ColumnStep(w, line, block.account, skewed && c.setColumn);
      CompleteStep(w1, line, email, block, false, c);
      GrowChains(w, w1, Complete(w1, line, email, block, false, c).0, line);
    } else {
      var block := Block(w.chatwoot.next, 0, "");
      var w2 := WithColumn(Stored(WithAccount(w), line, block), line, block.account, c.setColumn);
      AccountIsNew(w);
      AccountGrows(w, line);
      AccountStep(w, line, c.setColumn);
      CompleteStep(w2, line, email, block, true, c);
      GrowChains(w, w2, Complete(w2, line, email, block, true, c).0, line);
    }
  }

  lemma AccountGrows(w: World, line: Line)
    ensures BlocksGrow(w, WithAccount(w), line) && WithAccount(w).blocks == w.blocks
    ensures WithAccount(w).chatwoot.inboxes == w.chatwoot.inboxes && WithAccount(w).chatwoot.users == w.chatwoot.users
  {
  }

  lemma AccountIsNew(w: World)
    requires Fresh(w)
    ensures Fresh(WithAccount(w)) && Gains(w.chatwoot.accounts, WithAccount(w).chatwoot.accounts, true)
  {
  }

  // A run that answers `configured` leaves a block with the token and the inbox.
  lemma ConfiguredMeans(w: World, line: Line, email: Email, c: Calls)
    requires Fresh(w) && Ensure(w, line, email, c).1.configured
    ensures HasToken(Ensure(w, line, email, c).0, line) && HasInbox(Ensure(w, line, email, c).0, line)
  {
    hide Complete, Gains;
    if line in w.blocks {
      var account := w.blocks[line].account;
      var skewed := line !in w.columns || w.columns[line] != account;
      CompleteStep(WithColumn(w, line, account, skewed && c.setColumn), line, email, w.blocks[line], false, c);
    } else {
      var block := Block(w.chatwoot.next, 0, "");
      AccountIsNew(w);
      var w1 := WithColumn(Stored(WithAccount(w), line, block), line, block.account, c.setColumn);
      CompleteStep(w1, line, email, block, true, c);
    }
  }

  // And a run that can read the block creates nothing more and says the same.
  lemma ConfiguredSettles(w: World, line: Line, email: Email, c: Calls)
    requires HasToken(w, line) && HasInbox(w, line) && c.configured && c.canRead
    ensures var (w', a) := Ensure(w, line, email, c);
            w'.chatwoot == w.chatwoot && w'.blocks == w.blocks && a == Answer(true, false, Fine)
  {
  }

  // The line has a block to go on with: one that was stored, or a new one.
  predicate HasBlock(w: World, line: Line, c: Calls) { line in w.blocks || (c.createAccount && c.storeAccount) }

  // A run makes an account exactly when it is let in and there is no block, a user exactly
  // when the block it then has lacks a token and the email is free, and an inbox exactly
  // when the block has a token, by then, and no inbox - each unless the call fails.
  lemma MadeIff(w: World, line: Line, email: Email, c: Calls)
    requires Fresh(w)
    ensures var w' := Ensure(w, line, email, c).0;
            var starts := c.configured && c.canRead;
            var gets := c.createUser && email !in w.chatwoot.users;
            var token := HasToken(w, line) || (gets && c.storeToken && c.link && c.token != "");
            && (w'.chatwoot.accounts != w.chatwoot.accounts <==> starts && line !in w.blocks && c.createAccount)
            && (w'.chatwoot.users != w.chatwoot.users <==>
                  starts && HasBlock(w, line, c) && !HasToken(w, line) && gets)
            && (w'.chatwoot.inboxes != w.chatwoot.inboxes <==>
                  starts && HasBlock(w, line, c) && token && !HasInbox(w, line) && c.createInbox)
  {
    hide Complete;
    assert w.chatwoot.next !in w.chatwoot.accounts;
    if line in w.blocks {
      var account := w.blocks[line].account;
      var w1 := WithColumn(w, line, account, (line !in w.columns || w.columns[line] != account) && c.setColumn);
      CompleteMakes(w1, line, email, w.blocks[line], false, c);
    } else {
      var block := Block(w.chatwoot.next, 0, "");
      var w1 := WithColumn(Stored(WithAccount(w), line, block), line, block.account, c.setColumn);
      CompleteMakes(w1, line, email, block, true, c);
    }
  }

  lemma CompleteMakes(w: World, line: Line, email: Email, block: Block, created: bool, c: Calls)
    requires Fresh(w)
    ensures var w' := Complete(w, line, email, block, created, c).0;
            var gets := c.createUser && email !in w.chatwoot.users;
            var token := block.token != "" || (gets && c.storeToken && c.link && c.token != "");
            && w'.chatwoot.accounts == w.chatwoot.accounts
            && (w'.chatwoot.users != w.chatwoot.users <==> block.token == "" && gets)
            && (w'.chatwoot.inboxes != w.chatwoot.inboxes <==> token && block.inbox == 0 && c.createInbox)
  {
    assert w.chatwoot.next !in w.chatwoot.inboxes;
    if email !in w.chatwoot.users {
      assert email in WithUser(w, email, block.account, c.link).chatwoot.users;
    }
  }

  // What was made and could not be written into the block is answered as such, and the
  // block does not show it.
  lemma UnstoredIsSaid(w: World, line: Line, email: Email, c: Calls)
    requires Fresh(w)
    ensures var (w', a) := Ensure(w, line, email, c);
            && (a.reason.AccountNotStored? <==> w'.chatwoot.accounts != w.chatwoot.accounts && !c.storeAccount)
            && (a.reason.AccountNotStored? ==> line !in w'.blocks)
            && (a.reason.TokenNotStored? <==> w'.chatwoot.users != w.chatwoot.users && !c.storeToken)
            && (a.reason.TokenNotStored? ==> !HasToken(w', line))
            && (a.reason.InboxNotStored? <==> w'.chatwoot.inboxes != w.chatwoot.inboxes && !c.storeInbox)
            && (a.reason.InboxNotStored? ==> !HasInbox(w', line))
  {
    hide Complete;
    assert w.chatwoot.next !in w.chatwoot.accounts;
    if line in w.blocks {
      var account := w.blocks[line].account;
      var w1 := WithColumn(w, line, account, (line !in w.columns || w.columns[line] != account) && c.setColumn);
      CompleteSays(w1, line, email, w.blocks[line], false, c);
    } else {
      var block := Block(w.chatwoot.next, 0, "");
      var w1 := WithColumn(Stored(WithAccount(w), line, block), line, block.account, c.setColumn);
      CompleteSays(w1, line, email, block, true, c);
    }
  }

  lemma CompleteSays(w: World, line: Line, email: Email, block: Block, created: bool, c: Calls)
    requires Fresh(w) && line in w.blocks && w.blocks[line] == block
    ensures var (w', a) := Complete(w, line, email, block, created, c);
            && !a.reason.AccountNotStored? && w'.chatwoot.accounts == w.chatwoot.accounts
            && (a.reason.TokenNotStored? <==> w'.chatwoot.users != w.chatwoot.users && !c.storeToken)
            && (a.reason.TokenNotStored? ==> !HasToken(w', line))
            && (a.reason.InboxNotStored? <==> w'.chatwoot.inboxes != w.chatwoot.inboxes && !c.storeInbox)
            && (a.reason.InboxNotStored? ==> !HasInbox(w', line))
  {
    assert w.chatwoot.next !in w.chatwoot.inboxes;
    if email !in w.chatwoot.users {
      assert email in WithUser(w, email, block.account, c.link).chatwoot.users;
    }
  }

  // Each reason is given exactly in its case, in the order in which a run gets to them.
  lemma AnswerTells(w: World, line: Line, email: Email, c: Calls)
    ensures var a := Ensure(w, line, email, c).1;
            var gets := c.createUser && email !in w.chatwoot.users;
            a.reason ==
              if !c.configured then NotConfigured
              else if !c.canRead then ReadFailed
              else if line !in w.blocks && !c.createAccount then AccountFailed
              else if line !in w.blocks && !c.storeAccount then AccountNotStored
              else if !HasToken(w, line) && !gets then UserFailed
              else if !HasToken(w, line) && !c.storeToken then TokenNotStored
              else if !HasToken(w, line) && !c.link then LinkFailed
              else if !HasToken(w, line) && c.token == "" then NoToken
              else if HasInbox(w, line) then Fine
              else if !c.createInbox then InboxFailed
              else if !c.storeInbox then InboxNotStored
              else Fine
    ensures var a := Ensure(w, line, email, c).1; a.configured <==> a.reason.Fine?
  {
    hide Complete;
    if line in w.blocks {
      var account := w.blocks[line].account;
      var w1 := WithColumn(w, line, account, (line !in w.columns || w.columns[line] != account) && c.setColumn);
      CompleteTells(w1, line, email, w.blocks[line], false, c);
    } else {
      var block := Block(w.chatwoot.next, 0, "");
      var w1 := WithColumn(Stored(WithAccount(w), line, block), line, block.account, c.setColumn);
      CompleteTells(w1, line, email, block, true, c);
    }
  }

  lemma CompleteTells(w: World, line: Line, email: Email, block: Block, created: bool, c: Calls)
    ensures var a := Complete(w, line, email, block, created, c).1;
            var gets := c.createUser && email !in w.chatwoot.users;
            && (a.configured <==> a.reason.Fine?)
            && a.reason ==
                 if block.token == "" && !gets then UserFailed
                 else if block.token == "" && !c.storeToken then TokenNotStored
                 else if block.token == "" && !c.link then LinkFailed
                 else if block.token == "" && c.token == "" then NoToken
                 else if block.inbox != 0 then Fine
                 else if !c.createInbox then InboxFailed
                 else if !c.storeInbox then InboxNotStored
                 else Fine
  {
  }

  // The account column of the line follows the account of its block whenever a run that
  // gets to a block writes it, and no other column moves.
  lemma ColumnFollowsBlock(w: World, line: Line, email: Email, c: Calls)
    ensures var w' := Ensure(w, line, email, c).0;
            w'.columns == if c.configured && c.canRead && c.setColumn && line in w'.blocks
                          then w.columns[line := w'.blocks[line].account] else w.columns
  {
    hide Complete;
    if line in w.blocks {
      var account := w.blocks[line].account;
      var w1 := WithColumn(w, line, account, (line !in w.columns || w.columns[line] != account) && c.setColumn);
      CompleteKeepsColumns(w1, line, email, w.blocks[line], false, c);
    } else {
      var block := Block(w.chatwoot.next, 0, "");
      var w1 := WithColumn(Stored(WithAccount(w), line, block), line, block.account, c.setColumn);
      CompleteKeepsColumns(w1, line, email, block, true, c);
    }
  }

  lemma CompleteKeepsColumns(w: World, line: Line, email: Email, block: Block, created: bool, c: Calls)
    requires line in w.blocks && w.blocks[line] == block
    ensures var w' := Complete(w, line, email, block, created, c).0;
            w'.columns == w.columns && line in w'.blocks && w'.blocks[line].account == block.account
  {
  }


  // `created` is reported exactly when something came to exist in Chatwoot.
  lemma CreatedIffMade(w: World, line: Line, email: Email, c: Calls)
    requires Fresh(w)
    ensures var (w', a) := Ensure(w, line, email, c);
            a.created <==> w'.chatwoot.accounts != w.chatwoot.accounts || w'.chatwoot.users != w.chatwoot.users ||
                           w'.chatwoot.inboxes != w.chatwoot.inboxes
  {
    hide Complete;
    assert w.chatwoot.next !in w.chatwoot.accounts;
    if line in w.blocks {
      var account := w.blocks[line].account;
      var w1 := WithColumn(w, line, account, (line !in w.columns || w.columns[line] != account) && c.setColumn);
      CompleteCreates(w1, line, email, w.blocks[line], false, c);
    } else {
      var block := Block(w.chatwoot.next, 0, "");
      var w1 := WithColumn(Stored(WithAccount(w), line, block), line, block.account, c.setColumn);
      CompleteCreates(w1, line, email, block, true, c);
    }
  }

  lemma CompleteCreates(w: World, line: Line, email: Email, block: Block, created: bool, c: Calls)
    requires Fresh(w)
    ensures var (w', a) := Complete(w, line, email, block, created, c);
            && w'.chatwoot.accounts == w.chatwoot.accounts
            && (a.created <==> created || w'.chatwoot.users != w.chatwoot.users ||
                               w'.chatwoot.inboxes != w.chatwoot.inboxes)
  {
    assert w.chatwoot.next !in w.chatwoot.inboxes;
  }

  // The run that obtains the token and answers `configured` has linked the user it
  // created to the line's account; a later run never links anybody.
  lemma LinkedByItsCreator(w: World, line: Line, email: Email, c: Calls)
    ensures var (w', a) := Ensure(w, line, email, c);
            && (a.configured && !HasToken(w, line) ==>
                  line in w'.blocks && email in w'.chatwoot.users &&
                  (w'.blocks[line].account, w'.chatwoot.users[email]) in w'.chatwoot.links)
            && (HasToken(w, line) ==> w'.chatwoot.links == w.chatwoot.links)
  {
  }

  // ---------- When a retry can still finish ----------

  predicate AllSucceed(c: Calls) {
    && c.configured && c.canRead && c.createAccount && c.storeAccount && c.setColumn && c.createUser && c.token != ""
    && c.link && c.storeToken && c.createInbox && c.storeInbox
  }

  // A run that meets no failure finishes the binding exactly when the block has the
  // token already or the email is still free in Chatwoot.
  lemma CanFinishIff(w: World, line: Line, email: Email, c: Calls)
    requires Fresh(w) && AllSucceed(c)
    ensures Ensure(w, line, email, c).1.configured <==> HasToken(w, line) || email !in w.chatwoot.users
  {
  }

  // ---------- Whole runs ----------

  datatype Run = Run(line: Line, email: Email, c: Calls)

  function After(w: World, runs: seq<Run>, n: nat): World
    requires n <= |runs|
  {
    if n == 0 then w else Ensure(After(w, runs, n - 1), runs[n - 1].line, runs[n - 1].email, runs[n - 1].c).0
  }

  // The answer of the n-th run.
  function Answered(w: World, runs: seq<Run>, n: nat): Answer
    requires n < |runs|
  {
    Ensure(After(w, runs, n), runs[n].line, runs[n].email, runs[n].c).1
  }

  // How many accounts the first n runs made for a line, and how many block writes failed.
  function AccountsMade(w: World, runs: seq<Run>, n: nat, line: Line): int
    requires n <= |runs|
  {
    if n == 0 then 0
    else AccountsMade(w, runs, n - 1, line) +
         (if runs[n - 1].line == line then
            |After(w, runs, n).chatwoot.accounts| - |After(w, runs, n - 1).chatwoot.accounts|
          else 0)
  }

  function AccountWritesFailed(w: World, runs: seq<Run>, n: nat, line: Line): nat
    requires n <= |runs|
  {
    if n == 0 then 0
    else AccountWritesFailed(w, runs, n - 1, line) +
         (if runs[n - 1].line == line && Answered(w, runs, n - 1).reason.AccountNotStored? then 1 else 0)
  }

  function InboxesMade(w: World, runs: seq<Run>, n: nat, line: Line): int
    requires n <= |runs|
  {
    if n == 0 then 0
    else InboxesMade(w, runs, n - 1, line) +
         (if runs[n - 1].line == line then
            |After(w, runs, n).chatwoot.inboxes| - |After(w, runs, n - 1).chatwoot.inboxes|
          else 0)
  }

  function InboxWritesFailed(w: World, runs: seq<Run>, n: nat, line: Line): nat
    requires n <= |runs|
  {
    if n == 0 then 0
    else InboxWritesFailed(w, runs, n - 1, line) +
         (if runs[n - 1].line == line && Answered(w, runs, n - 1).reason.InboxNotStored? then 1 else 0)
  }

  lemma {:induction false} FreshOverRuns(w: World, runs: seq<Run>, n: nat)
    requires Fresh(w) && n <= |runs|
    ensures Fresh(After(w, runs, n))
  {
    hide Ensure, Fresh;
    if n > 0 {
      FreshOverRuns(w, runs, n - 1);
      RunAfter(After(w, runs, n - 1), runs[n - 1].line, runs[n - 1].email, runs[n - 1].c);
    }
  }

  // Over any runs for any lines: the accounts made for a line are those whose block
  // write failed and the one its block refers to.
  lemma {:induction false} AccountsAreConserved(w: World, runs: seq<Run>, n: nat, line: Line)
    requires Fresh(w) && n <= |runs|
    ensures AccountsMade(w, runs, n, line) ==
            AccountWritesFailed(w, runs, n, line) +
            (if line in After(w, runs, n).blocks && line !in w.blocks then 1 else 0)
    ensures line in w.blocks ==> line in After(w, runs, n).blocks
  {
    hide Ensure, Fresh;
    if n > 0 {
      AccountsAreConserved(w, runs, n - 1, line);
      FreshOverRuns(w, runs, n - 1);
      RunAfter(After(w, runs, n - 1), runs[n - 1].line, runs[n - 1].email, runs[n - 1].c);
    }
  }

  lemma {:induction false} InboxesAreConserved(w: World, runs: seq<Run>, n: nat, line: Line)
    requires Fresh(w) && n <= |runs|
    ensures InboxesMade(w, runs, n, line) ==
            InboxWritesFailed(w, runs, n, line) +
            (if HasInbox(After(w, runs, n), line) && !HasInbox(w, line) then 1 else 0)
    ensures HasInbox(w, line) ==> HasInbox(After(w, runs, n), line)
  {
    hide Ensure, Fresh;
    if n > 0 {
      InboxesAreConserved(w, runs, n - 1, line);
      FreshOverRuns(w, runs, n - 1);
      RunAfter(After(w, runs, n - 1), runs[n - 1].line, runs[n - 1].email, runs[n - 1].c);
    }
  }

  // How many runs created a user with an email.
  function UsersMade(w: World, runs: seq<Run>, n: nat, email: Email): nat
    requires n <= |runs|
  {
    if n == 0 then 0
    else UsersMade(w, runs, n - 1, email) +
         (if runs[n - 1].email == email && After(w, runs, n).chatwoot.users != After(w, runs, n - 1).chatwoot.users
          then 1 else 0)
  }

  lemma {:induction false} UsersAreMadeOnce(w: World, runs: seq<Run>, n: nat, email: Email)
    requires Fresh(w) && n <= |runs|
    ensures UsersMade(w, runs, n, email) ==
            if email in After(w, runs, n).chatwoot.users && email !in w.chatwoot.users then 1 else 0
    ensures email in w.chatwoot.users ==> email in After(w, runs, n).chatwoot.users
  {
    hide Ensure, Fresh, Gains;
    if n > 0 {
      UsersAreMadeOnce(w, runs, n - 1, email);
      FreshOverRuns(w, runs, n - 1);
      RunAfter(After(w, runs, n - 1), runs[n - 1].line, runs[n - 1].email, runs[n - 1].c);
    }
  }

  // No write of a block failed.
  ghost predicate AllStored(w: World, runs: seq<Run>, n: nat)
    requires n <= |runs|
  {
    forall i :: 0 <= i < n ==>
      !Answered(w, runs, i).reason.AccountNotStored? && !Answered(w, runs, i).reason.InboxNotStored?
  }

  lemma {:induction false} NoneFailed(w: World, runs: seq<Run>, n: nat, line: Line)
    requires n <= |runs| && AllStored(w, runs, n)
    ensures AccountWritesFailed(w, runs, n, line) == 0 && InboxWritesFailed(w, runs, n, line) == 0
  {
    hide Ensure, After, Answered;
    if n > 0 {
      NoneFailed(w, runs, n - 1, line);
    }
  }

  // However often onboarding is run, and wherever Chatwoot fails, a line gets at most
  // one account and one inbox, and an email one user, as long as every block is stored.
  lemma ExactlyOnce(w: World, runs: seq<Run>, n: nat, line: Line, email: Email)
    requires Fresh(w) && n <= |runs| && AllStored(w, runs, n)
    ensures AccountsMade(w, runs, n, line) <= 1 && InboxesMade(w, runs, n, line) <= 1
    ensures UsersMade(w, runs, n, email) <= 1
  {
    hide After, Answered, AccountsMade, InboxesMade, UsersMade, Fresh;
    NoneFailed(w, runs, n, line);
    AccountsAreConserved(w, runs, n, line);
    InboxesAreConserved(w, runs, n, line);
    UsersAreMadeOnce(w, runs, n, email);
  }

  // ---------- The state no retry leaves ----------

  // The user was created and its token never reached the block.
  predicate Stuck(w: World, line: Line, email: Email) {
    line in w.blocks && w.blocks[line].token == "" && email in w.chatwoot.users
  }

  // Repeating the same request never finishes it: every answer says so.
  lemma {:induction false} StuckForGood(w: World, runs: seq<Run>, n: nat, line: Line, email: Email)
    requires Fresh(w) && n <= |runs| && Stuck(w, line, email)
    requires forall i :: 0 <= i < n && runs[i].line == line ==> runs[i].email == email
    ensures Stuck(After(w, runs, n), line, email)
    ensures forall i :: 0 <= i < n && runs[i].line == line ==> !Answered(w, runs, i).configured
  {
    hide Ensure, Fresh, Gains;
    if n > 0 {
      StuckForGood(w, runs, n - 1, line, email);
      FreshOverRuns(w, runs, n - 1);
      var b := After(w, runs, n - 1);
      RunAfter(b, runs[n - 1].line, runs[n - 1].email, runs[n - 1].c);
      if runs[n - 1].line == line {
        StuckStep(b, line, email, runs[n - 1].c);
      }
    }
  }

  lemma StuckStep(w: World, line: Line, email: Email, c: Calls)
    requires Stuck(w, line, email)
    ensures Ensure(w, line, email, c).0.blocks == w.blocks && !Ensure(w, line, email, c).1.configured
  {
  }

  // A run that fails to store the token leaves this state behind.
  lemma StuckIsReached(w: World, line: Line, email: Email, c: Calls)
    requires c.configured && c.canRead && c.createAccount && c.storeAccount && c.createUser && !c.storeToken
    requires line !in w.blocks && email !in w.chatwoot.users
    ensures Stuck(Ensure(w, line, email, c).0, line, email)
  {
  }

  // ---------- Who is linked ----------

  const EMPTY := World(map[], map[], Chatwoot({}, map[], {}, {}, 1))
  const ALL_FINE := Calls(true, true, true, true, true, true, "token", true, true, true, true)

  // The link fails once, everything succeeds the second time: the tenant is reported
  // configured, and its administrator is not a member of the account.
  lemma ConfiguredWithoutLink(line: Line, email: Email)
    ensures var w1 := Ensure(EMPTY, line, email, ALL_FINE.(link := false)).0;
            var (w2, a) := Ensure(w1, line, email, ALL_FINE);
            && a.configured && line in w2.blocks && email in w2.chatwoot.users
            && (w2.blocks[line].account, w2.chatwoot.users[email]) !in w2.chatwoot.links
  {
  }

  // Members and links refer to users that exist.
  ghost predicate LinksFresh(w: World) {
    && (forall a, u :: (a, u) in w.chatwoot.links ==> u < w.chatwoot.next)
    && (forall e :: e in w.chatwoot.users ==> w.chatwoot.users[e] < w.chatwoot.next)
  }

  predicate Linked(w: World, line: Line, email: Email) {
    line in w.blocks && email in w.chatwoot.users &&
    (w.blocks[line].account, w.chatwoot.users[email]) in w.chatwoot.links
  }

  // Users and links that exist stay, and new links are for new users.
  ghost predicate LinksGrow(w: World, w': World) {
    && w.chatwoot.next <= w'.chatwoot.next
    && (forall e :: e in w.chatwoot.users ==> e in w'.chatwoot.users && w'.chatwoot.users[e] == w.chatwoot.users[e])
    && (forall a, u :: u < w.chatwoot.next ==> ((a, u) in w'.chatwoot.links <==> (a, u) in w.chatwoot.links))
  }

  lemma InboxLinks(w: World, line: Line, block: Block, created: bool, c: Calls)
    requires LinksFresh(w)
    ensures LinksFresh(CompleteInbox(w, line, block, created, c).0)
    ensures LinksGrow(w, CompleteInbox(w, line, block, created, c).0)
  {
  }

  lemma UserLinks(w: World, line: Line, email: Email, block: Block, linked: bool)
    requires LinksFresh(w) && email !in w.chatwoot.users
    ensures var w1 := WithUser(w, email, block.account, linked);
            && LinksFresh(w1) && LinksFresh(Stored(w1, line, block))
            && LinksGrow(w, w1) && LinksGrow(w, Stored(w1, line, block))
  {
  }

  lemma LinksChain(a: World, b: World, c: World)
    requires LinksGrow(a, b) && LinksGrow(b, c)
    ensures LinksGrow(a, c)
  {
  }

  lemma CompleteLinks(w: World, line: Line, email: Email, block: Block, created: bool, c: Calls)
    requires LinksFresh(w)
    ensures LinksFresh(Complete(w, line, email, block, created, c).0)
    ensures LinksGrow(w, Complete(w, line, email, block, created, c).0)
  {
    hide CompleteInbox, LinksFresh, LinksGrow, WithUser, Stored;
    GrowsNone(w);
    if block.token != "" {
      InboxLinks(w, line, block, created, c);
    } else if c.createUser && email !in w.chatwoot.users {
      var b := block.(token := c.token);
      var w2 := Stored(WithUser(w, email, block.account, c.link), line, b);
      UserLinks(w, line, email, b, c.link);
      InboxLinks(w2, line, b, true, c);
      LinksChain(w, w2, CompleteInbox(w2, line, b, true, c).0);
    }
  }

  lemma GrowsNone(w: World)
    ensures LinksGrow(w, w)
  {
  }

  lemma AccountLinks(w: World, line: Line, block: Block, repair: bool)
    requires LinksFresh(w)
    ensures LinksFresh(WithAccount(w)) && LinksGrow(w, WithAccount(w))
    ensures var w2 := WithColumn(Stored(WithAccount(w), line, block), line, block.account, repair);
            LinksFresh(w2) && LinksGrow(w, w2)
    ensures LinksFresh(WithColumn(w, line, block.account, repair))
    ensures LinksGrow(w, WithColumn(w, line, block.account, repair))
  {
  }

  lemma RunLinks(w: World, line: Line, email: Email, c: Calls)
    requires LinksFresh(w)
    ensures LinksFresh(Ensure(w, line, email, c).0) && LinksGrow(w, Ensure(w, line, email, c).0)
  {
    hide Complete, LinksFresh, LinksGrow, WithAccount, WithColumn, Stored;
    GrowsNone(w);
    if line in w.blocks {
      var block := w.blocks[line];
      var skewed := line !in w.columns || w.columns[line] != block.account;
      var w1 := WithColumn(w, line, block.account, skewed && c.setColumn);
      AccountLinks(w, line, block, skewed && c.setColumn);
      CompleteLinks(w1, line, email, block, false, c);
      LinksChain(w, w1, Complete(w1, line, email, block, false, c).0);
    } else {
      var block := Block(w.chatwoot.next, 0, "");
      var w2 := WithColumn(Stored(WithAccount(w), line, block), line, block.account, c.setColumn);
      AccountLinks(w, line, block, c.setColumn);
      CompleteLinks(w2, line, email, block, true, c);
      LinksChain(w, w2, Complete(w2, line, email, block, true, c).0);
    }
  }

  // The run that stores the token is the one that creates the user, and it answers
  // LinkFailed exactly when it does not link.
  lemma TokenRun(w: World, line: Line, email: Email, c: Calls)
    requires LinksFresh(w)
    ensures var (w', a) := Ensure(w, line, email, c);
            && (!HasToken(w, line) && HasToken(w', line) ==>
                  email !in w.chatwoot.users && email in w'.chatwoot.users &&
                  (Linked(w', line, email) <==> !a.reason.LinkFailed?))
            && (a.reason.LinkFailed? ==> !HasToken(w, line) && email in w'.chatwoot.users)
  {
    hide Complete;
    if line in w.blocks {
      var account := w.blocks[line].account;
      var w1 := WithColumn(w, line, account, (line !in w.columns || w.columns[line] != account) && c.setColumn);
      CompleteTokenRun(w1, line, email, w.blocks[line], false, c);
    } else {
      var block := Block(w.chatwoot.next, 0, "");
      var w1 := WithColumn(Stored(WithAccount(w), line, block), line, block.account, c.setColumn);
      CompleteTokenRun(w1, line, email, block, true, c);
    }
  }

  lemma CompleteTokenRun(w: World, line: Line, email: Email, block: Block, created: bool, c: Calls)
    requires LinksFresh(w) && line in w.blocks && w.blocks[line] == block
    ensures var (w', a) := Complete(w, line, email, block, created, c);
            && (!HasToken(w, line) && HasToken(w', line) ==>
                  email !in w.chatwoot.users && email in w'.chatwoot.users &&
                  (Linked(w', line, email) <==> !a.reason.LinkFailed?))
            && (a.reason.LinkFailed? ==> !HasToken(w, line) && email in w'.chatwoot.users)
  {
  }

  // Some of the first n runs for the line answered that linking failed.
  ghost predicate LinkFailedBefore(w: World, runs: seq<Run>, n: nat, line: Line)
    requires n <= |runs|
  {
    exists i :: 0 <= i < n && runs[i].line == line && Answered(w, runs, i).reason.LinkFailed?
  }

  // What the link invariant needs to know of the state after n runs.
  ghost predicate LinkKnown(w: World, runs: seq<Run>, n: nat, line: Line, email: Email)
    requires n <= |runs|
  {
    var w' := After(w, runs, n);
    && Fresh(w') && LinksFresh(w')
    && (LinkFailedBefore(w, runs, n, line) ==> email in w'.chatwoot.users)
    && (HasToken(w', line) ==>
          email in w'.chatwoot.users && (Linked(w', line, email) <==> !LinkFailedBefore(w, runs, n, line)))
  }

  // A line that started without a block and is always onboarded with one email: once its
  // block has the token, its user is a member of its account if and only if no run for
  // it answered that linking failed, whatever is onboarded beside it.
  lemma {:induction false} LinkedIff(w: World, runs: seq<Run>, n: nat, line: Line, email: Email)
    requires Fresh(w) && LinksFresh(w) && n <= |runs| && line !in w.blocks
    requires forall i :: 0 <= i < n && runs[i].line == line ==> runs[i].email == email
    ensures LinkKnown(w, runs, n, line, email)
  {
    hide Ensure, Fresh, Gains, LinksFresh, Linked;
    if n > 0 {
      LinkedIff(w, runs, n - 1, line, email);
      var b, r := After(w, runs, n - 1), runs[n - 1];
      RunAfter(b, r.line, r.email, r.c);
      RunLinks(b, r.line, r.email, r.c);
      LinkFailedStep(w, runs, n, line);
      if r.line == line {
        TokenRun(b, line, email, r.c);
        if HasToken(b, line) {
          LinkedStays(b, After(w, runs, n), line, email);
        }
      } else if HasToken(b, line) {
        LinkedStays(b, After(w, runs, n), line, email);
      }
    }
  }

  lemma LinkFailedStep(w: World, runs: seq<Run>, n: nat, line: Line)
    requires 0 < n <= |runs|
    ensures LinkFailedBefore(w, runs, n, line) <==>
              LinkFailedBefore(w, runs, n - 1, line) ||
              (runs[n - 1].line == line && Answered(w, runs, n - 1).reason.LinkFailed?)
  {
    hide Answered, After;
  }

  lemma LinkedStays(w: World, w': World, line: Line, email: Email)
    requires LinksFresh(w) && line in w.blocks && email in w.chatwoot.users
    requires line in w'.blocks && w'.blocks[line].account == w.blocks[line].account
    requires LinksGrow(w, w')
    ensures Linked(w', line, email) <==> Linked(w, line, email)
  {
  }

  // Hence configured means linked exactly when none of those runs answered so.
  lemma ConfiguredIsLinkedIff(w: World, runs: seq<Run>, n: nat, line: Line, email: Email)
    requires Fresh(w) && LinksFresh(w) && n < |runs| && line !in w.blocks && runs[n].line == line
    requires forall i :: 0 <= i <= n && runs[i].line == line ==> runs[i].email == email
    requires Answered(w, runs, n).configured
    ensures Linked(After(w, runs, n + 1), line, email) <==>
              forall i :: 0 <= i <= n && runs[i].line == line ==> !Answered(w, runs, i).reason.LinkFailed?
  {
    hide Ensure, Fresh, LinksFresh, Linked;
    LinkedIff(w, runs, n + 1, line, email);
    FreshOverRuns(w, runs, n);
    ConfiguredMeans(After(w, runs, n), line, email, runs[n].c);
  }
}
