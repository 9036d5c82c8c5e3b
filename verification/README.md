# UNICA in Dafny: facts, breaker, sessions, versions and provisioning

A model of the five parts of UNICA whose behaviour is hardest to see by reading,
with proofs of what they promise. Code that works in place is a class whose methods
are proved against a function of the old state; the promises are then proved of that
function, for every input and for every run.

- **Facts and claims** (`Text`, `Hierarchy`, `Ontology`, `Faults`, `Facts`, `Claims`, `Render`,
  `Validator`, `Silence`, `Report`, `CopiedTags`). An ontology states values of properties in
  scoped situations. The most specific applicable statement is chosen by an integer
  score; statements are printed as `[FACT:...]` tags, parsed back, and judged. The
  main results: the score is a lexicographic order, the capped class walk is exact if
  and only if chains fit the cap, printing and parsing are inverse, and the
  validator is silent if and only if every claim is supported and functional
  properties are single-valued, and otherwise reports each failing claim once, in order
  and for the first condition it fails.
- **The circuit breaker** (`Breaker`, `BreakerRuns`). A ring buffer per product line,
  refined against the plain list of outcomes since the last reset, with bounds on how
  far trips lie apart and on how much suppression goes unnoticed, and the exact instant
  from which enforcement is back.
- **Renewing sessions across tabs** (`Session`, `SessionWorld`, `SessionSafety`,
  `SessionChain`, `SessionAnswers`). Any number of tabs share a vault of token pairs and a server with
  single-use refresh tokens. The main results: exactly when a vault entry is dead, that no
  token is exchanged twice, that a renewal posts no more often than others give it
  reason to, what each renewal and request comes to, and that a signed-out account stays
  signed out.
- **Versions and their projection** (`Versions`, `VersionRuns`, `PromptPush`,
  `PromptSafety`, `ModelWrite`, `ModelSafety`, `ModelAnswers`, `ModelRuns`, `FactCache`). Three version
  tables as transactions; prompts and models projected into Dify by calls that may fail
  at any point; the cache in front of the ontology table under interleaving.
- **Resumable provisioning** (`DifyLine`, `LineSafety`, `LineSteps`, `Onboarding`). Walks that create
  remote objects which cannot be created twice: what they create is conserved, what they
  finish stays finished, and which failures no repetition repairs.

## What the proofs found

- `portal/index.html:401-403` adopts an entry listed earlier; its comment says this
  leaves what is remembered alone. When another tab has renewed the account meanwhile,
  it writes a spent token over a live one (`SessionSafety.StalePickBreaksTheVault`), and
  a renewal under way elsewhere can post a token it has posted before
  (`SessionChain.StalePickRepeatsPost`, and by another way `JoiningRepeatsPost`), which
  `portal/auth.js:366-367` takes to be impossible.
  `ListedPickIsSafeIff` says exactly when such a pick does the vault no harm, and
  `CurrentPickIsSafe` what the page could check beforehand; `SessionChain.NeverRepeatsIff`
  says exactly when a tab posts no token twice, and what the tab could check before it posts.
- Saving a text that is already active reuses its revision. When Dify is then left with
  another text, the revision keeps the pushed_at of its first delivery and claims to be in
  effect, although the answer says otherwise (`PromptSafety.ResendLies`). This and edits in
  Dify are the only ways to that state (`PromptSafety.PushedIsInEffectIff`).
- The server deletes a refresh token before it looks up the account and stores the
  successor (`unica/admin/internal/handler/auth.go:131-156`). A failure in between, or a key that is not stored, leaves
  a vault entry without a future, and nothing else does while picks are current
  (`SessionSafety.VaultEntryIsBackedIff`).
- `IsSubclassOf` stops after 16 steps, so longer chains are cut; validation does not
  refuse them (`Hierarchy.WalkExactIffChainsFit`).
- A tag copied without a qualifier is reported ambiguous as soon as another situation
  states other values (`CopiedTags.CopiedTagIsSilentIff`).
- The model table folds a NULL scope onto the nil uuid, so a line with that id would lose
  its override to a platform write (`ModelSafety.NilLineIsDragged`). The code never
  generates that id; only a row inserted by hand could have it, so this is a remark on the
  scope predicate, and the reason `ModelSafety.LinesApart` excludes it.
- An invalidation does not outlast a load that queried before it and stores after it
  (`FactCache.LateLoadUndoesInvalidate`), and that is the only way it fails
  (`FactCache.InvalidateReloadsIff`); the staleness bound holds all the same.
- An onboarding whose user was created but whose token was not stored can never be
  finished by repeating it (`Onboarding.StuckForGood`), and one whose link failed can later
  be reported configured without it (`Onboarding.ConfiguredWithoutLink`), which happens
  exactly when some run answered that linking failed (`Onboarding.ConfiguredIsLinkedIff`).

## Choices of the model

- Clock readings, the outcome of every remote call and the point at which a transaction
  fails are parameters; every theorem holds for all of them. A remote call that fails has
  no effect unless its outcome says otherwise (a prompt or model write that failed after
  it was sent may leave the app with anything; an attachment or a retrieval write may have
  landed).
- Access and refresh token of one issue are one value named after the request that
  obtained it, so issued tokens are fresh. The server's lookup and deletion of a refresh
  token are one step, and neither fails in Redis; what follows the deletion may. Storage
  access is atomic per synchronous stretch, and no server reply is lost.
- A page adopts a listed account, or the only one, while it has no renewal in flight: the
  page with the list sends no api request, and the others bootstrap before their first.
  Only pairs that have reached the vault can be listed.
- Rates are exact rationals. The prompt digest is injective, so digests are compared as
  texts. Case folding, date and number parsing are parameters of the ontology model.
- Go maps whose order shows are lists in visit order (labels) or visited in arbitrary
  order (scopes).
- SQL transactions are atomic; the sequence behind row ids is not rolled back. Ids handed
  out by Dify and Chatwoot are fresh.
- Handlers of one kind of write are run one at a time, except for the cache and the
  sessions, whose steps interleave.

## Model

| member | source | states |
|---|---|---|
| Breaker.Normalise | unica/pkg/domain/breaker.go:62-85 | fills every unusable field so that the result is usable, leaves a usable configuration as it is, and raises a window below the sample floor to exactly that floor |
| Breaker.RingPut | unica/pkg/domain/breaker.go:177-187 | one slot overwritten keeps the ring and its running count describing the last `Window` outcomes of the plain list |
| Breaker.BreakerLine.Put | unica/pkg/domain/breaker.go:177-187 | the in-place write appends to the plain list; the object stays valid |
| Breaker.BreakerLine.Reset | unica/pkg/domain/breaker.go:226-230 | the window starts over although the slots are not cleared: no leftover slot shows again |
| Breaker.BreakerLine.Resize | unica/pkg/domain/breaker.go:205-217 | a changed window starts over and keeps cooldown and trip count |
| Breaker.BreakerLine.MeasuredRate | unica/pkg/domain/breaker.go:219-224 | running count over filled slots is the exact rate of the last `Window` outcomes |
| Breaker.BreakerLine.Judge | unica/pkg/domain/breaker.go:145-152 | the decision from the fields is the decision on the plain list |
| Breaker.Breaker.LineOf | unica/pkg/domain/breaker.go:205-217 | first use creates the line, a changed window restarts it, and no other line is touched |
| Breaker.Breaker.Allow | unica/pkg/domain/breaker.go:129-161 | answer and new state are those of the list specification (whose runs BreakerRuns describes), for every configuration and pair of clock readings; every other line is as before |
| Breaker.Breaker.Record | unica/pkg/domain/breaker.go:167-188 | the outcome joins the list of its own line only; a disabled breaker records nothing |
| Breaker.Breaker.Open | unica/pkg/domain/breaker.go:192-201 | true exactly while the line is known and its cooldown lasts |
| BreakerRuns.LinesAreIndependent | unica/pkg/domain/breaker.go:120-122 | over every run a line ends as its own events alone would leave it |
| BreakerRuns.TripsAreApart | unica/pkg/domain/breaker.go:129-161 | two trips of a line are the first trip's cooldown apart, with at least MinSamples recordings between them, whatever else happened and however the window changed |
| BreakerRuns.EnforcementComesBack | unica/pkg/domain/breaker.go:138-160 | after a trip and until the line trips again, every Allow before the configured number of seconds is over is refused without a trip and none from then on; Open says so exactly as long |
| BreakerRuns.OffUntil | unica/pkg/domain/breaker.go:144-148 | the line is off until exactly that instant |
| BreakerRuns.NeverOffBefore | unica/pkg/domain/breaker.go:138-143 | a line that never tripped is never off |
| BreakerRuns.TripsAreCounted | unica/pkg/domain/breaker.go:144-148 | the trip counter is the number of trips of the run |
| BreakerRuns.DisabledAlwaysAllows | unica/pkg/domain/breaker.go:129-136 | a disabled breaker lets every call pass and records nothing |
| BreakerRuns.FullWindowTrips | unica/pkg/domain/breaker.go:129-161 | whatever the line's state before and however often Allow is asked meanwhile, in a cooldown or out of it: a window full of suppressed outcomes recorded without a trip makes the next Allow after any cooldown trip |
| BreakerRuns.ImplausibleExactly | unica/pkg/domain/breaker.go:219-224 | the rate test without its division: enough samples and count at least rate times samples |
| BreakerRuns.QuietIsTolerable | unica/pkg/domain/breaker.go:129-161 | a list no prefix of which would trip holds at most the tolerated number of suppressed outcomes |
| BreakerRuns.SuppressionIsBounded | unica/pkg/domain/breaker.go:129-188 | while Allow keeps answering true after each Record, n outcomes since a reset hold at most TripRate*Window*(n div Window) + max(MinSamples-1, TripRate*(n mod Window)) suppressed ones |
| Session.TabSession.AdoptPair | portal/auth.js:211-236 | the tab takes the pair; the vault is written when asked to remember or when the account has an entry, and never gains one otherwise |
| Session.TabSession.ReconcileFromTable | portal/auth.js:284-293 | adopts the vault's pair for this account exactly when it is one the tab has not seen |
| Session.TabSession.Refresh | portal/auth.js:328-343 | the synchronous part of a renewal: settle on the vault, join the one in flight, give up, or post the held token once |
| Session.TabSession.HandleReply | portal/auth.js:344-370 | both continuations of a renewal, including the repeat with a newer pair |
| Session.TabSession.ForgetRefusedToken | portal/auth.js:195-204 | a refused token leaves the vault only if it is still what the vault holds |
| Session.TabSession.SignOut | portal/auth.js:461-465 | drops the tab's pair and its account's entry, nothing else |
| Session.TabSession.BootstrapTab | portal/auth.js:244-251 | a tab without a pair adopts the only remembered account, unless it was thrown out |
| Session.TabSession.HandleAnswer | portal/auth.js:379-423 | the answer to a request: done, sent again with a newer pair, given up after a retry, or put off until the renewal it starts settles |
| Session.TabSession.HandleSettled | portal/auth.js:423-428 | a renewal that resolves sends the request again with the pair then held; one that rejects announces the lost session |
| Session.TabSession.AnnounceSessionLost | portal/auth.js:258-271 | announced once, and the tab marked as thrown out |
| Session.SendsAtMostTwice | portal/auth.js:379-429 | a request goes out at most twice, whatever pairs the tab holds at each of its events |
| Session.SecondSendHasReason | portal/auth.js:411-429 | the second time only after a 401, with a newer pair than the first carried or after a renewal; a call that fails on a 401 has announced the lost session |
| Session.Storage.ForgetAccount | portal/auth.js:174-180 | removes one account's entry and no other |
| SessionWorld.AuthServer.HandleLogin | unica/admin/internal/handler/auth.go:81-94 | a new pair goes out; the server accepts it exactly when its key could be stored |
| SessionWorld.AuthServer.HandleRefresh | unica/admin/internal/handler/auth.go:122-158 | an accepted token is deleted first; then the account may be refused, the server break, or one new pair go out, accepted exactly when its key could be stored; any other token is refused without effect |
| SessionSafety.RefreshMoves | portal/auth.js:328-343 | whenever a renewal posts, it posts the held token, which the vault holds too or not that account at all, and it recorded truly whether the account was remembered |
| SessionSafety.FailureMoves | portal/auth.js:348-370 | a failed renewal keeps the account, posts again only such a token, and removes an entry only on a refusal of exactly that entry |
| SessionSafety.StepPreserves | portal/auth.js:211-372 | every step of every tab, page and server, failing or not, keeps the protocol invariant |
| SessionSafety.VaultEntryIsBackedIff | unica/admin/internal/handler/auth.go:130-158 | in every reachable state of any number of tabs whose picks are current, a vault entry is accepted by the server, or its accepted renewal is in flight in a tab that remembered the account, if and only if the server neither spent it without storing a successor nor handed it out unstored |
| SessionSafety.VaultIsNeverDead | portal/auth.js:195-372 | hence no entry is dead while picks are current and the server completes and stores every exchange it begins; at most one request is outstanding per tab in any case |
| SessionSafety.UnstoredKeyEndsInTheVault | unica/admin/internal/handler/auth.go:152-158 | a run in which a key is not stored and the vault is left with a token the server never accepted |
| SessionSafety.BackedUntilRetired | portal/auth.js:344-348 | a known pair keeps its future exactly until a granted renewal of it is delivered, or it is exchanged other than for a stored pair on its way to a tab that remembered the account |
| SessionSafety.NeverBackedAgain | unica/admin/internal/handler/auth.go:122-131 | and never gets it back |
| SessionSafety.ListedPickIsSafeIff | portal/index.html:401-403 | over any run between listing and picking: the pick leaves the account's entry backed if and only if the account left the vault or nothing retired the listed pair since |
| SessionSafety.CurrentPickIsSafe | portal/index.html:399-403 | what the page could check: a pick of what the vault still holds, or of an account that left it, changes nothing in the vault, as the comment there says |
| SessionSafety.StalePickBreaksTheVault | portal/index.html:401-403 | a concrete run in which the listing entry is stale when it is picked and the vault is left with a spent token |
| SessionSafety.ListedOnceIsReachable | portal/auth.js:154-172 | the start of that run is reached by opening two tabs and signing in |
| SessionSafety.SpentForGood | unica/admin/internal/handler/auth.go:122-156 | a spent refresh token is never accepted again |
| SessionSafety.ExchangedOnce | unica/admin/internal/handler/auth.go:122-156 | no refresh token is exchanged twice in any run, given that the deletion takes effect |
| SessionSafety.LiveEntriesSurvive | portal/auth.js:174-236 | an accepted vault entry is removed only by signing out or being forgotten; otherwise it stays or gives way to a pair just delivered, accepted too unless its key was not stored |
| SessionSafety.AccountIsStable | portal/auth.js:284-293 | whatever renewals do, a tab's account is the same until its visitor signs in or out there |
| SessionChain.ChainStep | portal/auth.js:344-370 | a renewal repeats only from its own reply, with the pair then held, and never when nothing moved since the last post |
| SessionChain.ChainTally | portal/auth.js:328-372 | the posts of a chain are counted against the changes others made while it ran |
| SessionChain.ChainIsBounded | portal/auth.js:328-372 | one refreshAccess chain posts at most once more than others change the vault or the tab's pair meanwhile, so it ends when they stop |
| SessionChain.NextIsSent | portal/auth.js:328-372 | whatever makes a tab post, it posts the pair it holds once settled with the vault |
| SessionChain.NeverRepeatsIff | portal/auth.js:328-372 | in any stretch of any run the tokens a tab posts are pairwise different if and only if, each time it posts, what it holds once settled with the vault is not one of those it has posted |
| SessionChain.ChainNeverRepeats | portal/auth.js:328-372 | the half another page can see to: a chain posts no token twice while the page with the list puts none of the tokens it has posted back over a newer vault entry |
| SessionChain.CurrentPicksNeverRepeat | portal/auth.js:328-372 | so never while picked entries are current |
| SessionChain.StalePickRepeatsPost | portal/index.html:401-403 | a run in which a stale pick in another tab does that and a token is posted twice |
| SessionChain.JoiningRepeatsPost | portal/auth.js:356-362 | a run in which a second request of the tab takes the picked pair up and joins: the vault then offers the tab nothing, and the token is posted twice all the same |
| SessionChain.ThreeTabsAreReachable | portal/auth.js:244-251 | its start is reached from a sign-in by opening a tab and bootstrapping one |
| SessionAnswers.RenewalAnswers | portal/auth.js:328-343 | a renewal moves the tab to its account's newest pair and leaves the vault alone; it resolves at once if and only if that pair is new to the tab and good, is rejected if and only if the tab has neither a pair nor a renewal in flight, and otherwise joins or posts the newest pair |
| SessionAnswers.GrantAnswers | portal/auth.js:344-348 | a granted pair is in the tab, and in the vault when the account was remembered as the request left or is there now; other entries stay |
| SessionAnswers.FailureAnswers | portal/auth.js:349-370 | a failed renewal is rejected if and only if tab and vault have nothing but the token that failed, resolves if and only if there is another good pair, and otherwise posts the newest |
| SessionAnswers.FailureForgets | portal/auth.js:364-368 | it takes out of the vault exactly a refused token that tab and vault both still hold |
| SessionAnswers.RefusedRequest | portal/auth.js:411-429 | a request refused for the first time goes out again at once, with the pair the tab then holds, if and only if the tab already had another or the vault has a newer good one; it is given up if and only if the tab has no pair and no renewal in flight |
| SessionAnswers.WaitedForRenewal | portal/auth.js:423-428 | a renewal it waited for sends it out again when it succeeds, and else the lost session is announced |
| SessionAnswers.CallEnds | portal/auth.js:379-429 | a call ends well if and only if an answer is no 401, and badly if and only if a second 401 comes or the renewal it waits for does not succeed; the loss is then announced, once |
| SessionAnswers.ResendsIff | portal/auth.js:411-429 | it goes out a second time if and only if a first 401 finds another pair in the tab than it carried, or its renewal succeeds |
| SessionAnswers.ThrownOutStaysOut | portal/auth.js:244-271 | a tab thrown out of its session does not sign itself back in |
| SessionAnswers.SignOutForgets | portal/auth.js:461-465 | the tab holds nothing, the account is out of the table, and every other entry is as before |
| SessionAnswers.ForgettingRemoves | portal/auth.js:174-180 | forgetting a listed account takes out its entry alone and touches no tab |
| SessionAnswers.EndingKeepsVault | portal/auth.js:67-86 | a session that merely ended leaves its account in the vault: the tab alone drops its pair, or is marked as thrown out |
| SessionAnswers.BootstrapAdopts | portal/auth.js:244-251 | a tab with no pair that was not thrown out takes up an account if and only if exactly one is remembered; the vault stays |
| SessionAnswers.EntersIff | portal/auth.js:211-236 | a step brings an account into the vault if and only if it delivers a sign-in that asked to be remembered, or a granted renewal that recorded the account as remembered |
| SessionAnswers.StaysOutIff | portal/auth.js:174-180 | over any run an account that is out of the vault stays out if and only if no step does that |
| SessionAnswers.SignedOutStaysOut | portal/auth.js:461-465 | in particular after signing out |
| Text.SortedNames | unica/pkg/domain/ontology.go:744-751 | each key once, in ascending order, whatever order the map is visited in |
| Hierarchy.DistanceTo | unica/pkg/domain/ontology.go:253-266 | the loop over cur and depth is the capped walk |
| Hierarchy.DistanceIs | unica/pkg/domain/ontology.go:253-266 | the walk answers with the first place of the ancestor on the chain |
| Hierarchy.DistanceIsAChain | unica/pkg/domain/ontology.go:253-267 | a distance is the length of a chain of declared parents from the class to the ancestor, of at most sixteen classes |
| Hierarchy.ChainIsFound | unica/pkg/domain/ontology.go:253-267 | every such chain is found, and no chain is shorter than the distance |
| Hierarchy.CheckNoCycle | unica/pkg/domain/ontology.go:707-717 | terminates on every finite hierarchy, cyclic or not, and accepts exactly the starts whose chain ends |
| Hierarchy.ValidateClasses | unica/pkg/domain/ontology.go:562-587 | silent exactly when every parent and every group member is declared and every chain ends; the reported fault is a real one |
| Hierarchy.ChainsEndIffAcyclic | unica/pkg/domain/ontology.go:707-717 | on declared parents, accepting every chain is the same as having no cycle |
| Hierarchy.WalkExactIffChainsFit | unica/pkg/domain/ontology.go:243-266 | on a valid hierarchy the capped walk is exactly reachability if and only if no chain holds more than 16 classes |
| Hierarchy.SubclassIsPartialOrder | unica/pkg/domain/ontology.go:243-246 | within the cap, IsSubclassOf on declared classes is reflexive, antisymmetric and transitive |
| Ontology.CanonicalIgnoresOrder | unica/pkg/domain/ontology.go:723-731 | with unambiguous labels the order a label map is visited in does not matter |
| Ontology.CanonicalOf | unica/pkg/domain/ontology.go:723-731 | a value that is a label up to case and space becomes that label's identifier |
| Ontology.ClaimValues | unica/pkg/domain/ontology.go:589-621 | the owner map accepts a dimension's values exactly when none of them is a class or another dimension's value |
| Ontology.ValidateDimensions | unica/pkg/domain/ontology.go:589-621 | accepts exactly the dimensions that are described and pairwise apart |
| Ontology.FindFold | unica/pkg/domain/ontology.go:733-740 | the loop finds a value equal up to case and space exactly when there is one |
| Ontology.FindCanonical | unica/pkg/domain/ontology.go:723-731 | the first label in visit order that is equal up to case and space, else the trimmed value |
| Ontology.FindNumericPart | unica/pkg/domain/ontology.go:505-519 | the character loop keeps the leading number, or the whole value when there is none |
| Ontology.CheckValue | unica/pkg/domain/ontology.go:444-496 | the list check and the switch over range types accept exactly the values a property may take |
| Ontology.NumericPartIsLongest | unica/pkg/domain/ontology.go:498-520 | the leading number is the longest prefix of the trimmed value that can belong to one; a value without one is kept whole |
| Ontology.NumbersAreBounded | unica/pkg/domain/ontology.go:444-496 | a numeric value is accepted if and only if it is listed where there is a list, parses, and lies within the bounds, ends included; a percentage lies within 0 and 100 unless bounded otherwise |
| Ontology.TextsAreListed | unica/pkg/domain/ontology.go:444-496 | any other value is accepted if and only if it is listed where there is a list and is a date where one is wanted; an enumeration must have a list and an unknown kind accepts nothing |
| Ontology.CheckProperty | unica/pkg/domain/ontology.go:623-654 | the nested label and requirement loops accept exactly a consistent property |
| Ontology.CheckScope | unica/pkg/domain/ontology.go:656-680 | the scope map visited in any order: every condition names a class, or a value of a declared dimension |
| Ontology.CheckValues | unica/pkg/domain/ontology.go:682-702 | declared, applicable, as many values as demanded, each acceptable |
| Ontology.AddDimension | unica/pkg/domain/ontology.go:601-619 | one round of the dimension loop |
| Ontology.ValidateProperties | unica/pkg/domain/ontology.go:623-654 | accepts exactly the ontologies whose properties are all consistent |
| Ontology.ValidateAssertions | unica/pkg/domain/ontology.go:656-705 | accepts exactly the ontologies whose assertions all hold up, loop within loop |
| Ontology.Validate | unica/pkg/domain/ontology.go:533-560 | accepts exactly the well-formed ontologies |
| Faults.RefusedIff | unica/pkg/domain/ontology.go:533-560 | an ontology is refused if and only if it has one of the faults, each told on its own: a blank product line, no properties, an undeclared parent or a cycle, a group of fewer than two or of unknown classes, a dimension that is reserved, empty or words an unlisted value, a value listed at two places or naming a class, an inconsistent property, an assertion whose condition or values do not hold up, a blank denial |
| Facts.CollectFacts | unica/pkg/domain/ontology.go:308-325 | the collected and sorted list is the specification's |
| Facts.StableSortIsStable | unica/pkg/domain/ontology.go:317-324 | the order is a permutation, general before specific, and keeps the declared order among equals |
| Facts.FactsAreStated | unica/pkg/domain/ontology.go:304-325 | the facts of a property are those of the assertions that give it values, each once, with their effective scope: the most general first, then by class name, and in declared order among equals |
| Facts.MatchScope | unica/pkg/domain/ontology.go:376-402 | the score does not depend on the order the scope map is iterated in |
| Facts.ScoreIsLexicographic | unica/pkg/domain/ontology.go:376-402 | 32 per dimension minus hops is exactly: more dimensions first, then fewer hops |
| Facts.FindAssertedValues | unica/pkg/domain/ontology.go:358-372 | the loop with its strict comparison is the specification's choice |
| Facts.BestWins | unica/pkg/domain/ontology.go:358-372 | the fact kept by the loop beats every applicable fact, the earlier one on a tie |
| Facts.MostSpecificFactWins | unica/pkg/domain/ontology.go:358-402 | AssertedValues answers with the values of the most specific applicable fact, and with none exactly when no fact applies |
| Facts.WinnerIsUnique | unica/pkg/domain/ontology.go:358-372 | there is only one such fact |
| Claims.OpensAtIff | unica/pkg/domain/claims.go:28-39 | a tag opens exactly where the text reads [FACT: in any letter case |
| Claims.TagAtFindsTags | unica/pkg/domain/claims.go:28 | the scanner finds exactly the matches of the strict claim pattern |
| Claims.SpanAtFindsSpans | unica/pkg/domain/claims.go:39 | the scanner finds exactly the matches of the stripping pattern |
| Claims.EveryClaimIsStripped | unica/pkg/domain/claims.go:71-97 | every claim lies inside exactly one stripped span and distinct claims in distinct spans |
| Claims.StripRemovesSpans | unica/pkg/domain/claims.go:71-97 | the stripped text is the input minus the characters of its spans |
| Claims.SplitKey | unica/pkg/domain/claims.go:101-109 | the segments of a key, trimmed and without blanks |
| Claims.ParseClaims | unica/pkg/domain/claims.go:71-97 | the claims in order and the cleaned text, for every answer |
| Claims.Tidy | unica/pkg/domain/claims.go:112-118 | the replacement loop terminates and computes the collapsed text |
| Claims.CollapseAfterHalve | unica/pkg/domain/claims.go:112-118 | one pass of the loop does not change what the text collapses to |
| Claims.TidiedIsTidy | unica/pkg/domain/claims.go:112-118 | no double space, no space before a line break, trimmed, every visible character kept in order, idempotent |
| Render.KeysAreTheScope | unica/pkg/domain/ontology.go:90-102 | the printed qualifiers are the scope's dimensions, each once |
| Render.RenderPrefix | unica/pkg/domain/render.go:95-125 | the qualifier part of a tag |
| Render.RenderFact | unica/pkg/domain/render.go:95-125 | one tag per value of a fact |
| Render.RenderProperty | unica/pkg/domain/render.go:95-125 | the tags of every fact of a property, in order |
| Render.AssertedIff | unica/pkg/domain/render.go:95-108 | the vocabulary lists exactly the asserted values: a claim for each value of each fact of each property, qualified by the fact's scope |
| Render.RenderTags | unica/pkg/domain/render.go:95-125 | the built block is the layout of the asserted claims |
| Render.TagReadsBack | unica/pkg/domain/claims.go:71-109 | one printed tag parses back to its claim, whatever follows it |
| Render.RenderedTagsParseBack | unica/pkg/domain/render.go:95-125 | parsing the whole rendered block gives exactly the asserted scopes, properties and values, in order |
| Validator.FirstDeclared | unica/pkg/domain/ontology.go:418-432 | resolution answers with a declared value equal up to case, and with none only when there is none |
| Validator.FindScope | unica/pkg/domain/validator.go:160-174 | the scope map is built or refused as specified |
| Validator.DistinctFacts | unica/pkg/domain/ontology.go:330-350 | the loop keeps one fact per value list |
| Validator.DistinctCounts | unica/pkg/domain/ontology.go:330-350 | at most one distinct list is left exactly when every situation states the same values |
| Validator.CompareToAssertions | unica/pkg/domain/validator.go:177-231 | the verdict of the nested branches |
| Validator.FindFault | unica/pkg/domain/validator.go:76-157 | the first fault of a claim on a declared property |
| Validator.CheckClaims | unica/pkg/domain/validator.go:76-157 | the violations and the table of values seen, claim by claim |
| Silence.CompareMeansAgreement | unica/pkg/domain/validator.go:177-231 | no complaint exactly when the claim agrees with the most specific applicable fact or, unqualified, with the only distinct list |
| Silence.FaultlessMeansSupported | unica/pkg/domain/validator.go:76-157 | no fault exactly when the scope resolves consistently, the property applies, the value is one it may take and the facts agree |
| Silence.SilentBookkeeping | unica/pkg/domain/validator.go:76-157 | the seen table holds exactly the values claimed so far, and silence means no functional property got two |
| Silence.SilentIff | unica/pkg/domain/validator.go:76-157 | checkClaims is silent if and only if every claim is supported (or undeclared in an open world) and functional properties are single-valued per scope |
| Silence.SilentIsSingleValued | unica/pkg/domain/validator.go:140-156 | after silence two claims on one functional property in one resolved scope carry the same value |
| Report.QualifierMeans | unica/pkg/domain/ontology.go:418-432 | a qualifier is the class of that name, else a declared value of the first dimension by name that has one it reads as, else unknown |
| Report.ScopeResolvesIff | unica/pkg/domain/validator.go:160-175 | the qualifiers resolve if and only if each of them does and no two exclude each other; the scope holds exactly what they say |
| Report.FaultIsFailure | unica/pkg/domain/validator.go:97-138 | a claim is faulted for the first condition it fails: scope, domain, range, the deciding fact's or only list's values, or several lists for an unqualified claim |
| Report.OneReport | unica/pkg/domain/validator.go:82-156 | each claim appends one violation that says what is wrong with it, or none, whatever was reported before |
| Report.ReportIs | unica/pkg/domain/validator.go:76-157 | the report has one violation, with property, label, value and reason, for every claim that is undeclared in a closed world, unsupported, or among disagreeing values of a functional property, and no other, in the order of the claims |
| Report.SameValuesIff | unica/pkg/domain/ontology.go:327-345 | two facts count as one if and only if they list the same values |
| Report.KeysMeetIff | unica/pkg/domain/validator.go:139-144 | two claims meet in the single-valued check if and only if they are on one property and their scopes read alike |
| CopiedTags.QualifiersResolve | unica/pkg/domain/validator.go:160-174 | the qualifiers printed for an assertion resolve to its own scope |
| CopiedTags.WinnerIsSameSituation | unica/pkg/domain/ontology.go:358-402 | the fact that wins for that scope describes the situation the tag was printed for |
| CopiedTags.CopiedTagIsSupportedIff | unica/pkg/domain/validator.go:177-231 | a claim copied from the listing is supported if and only if it is qualified or its property states one list everywhere |
| CopiedTags.CopiedTagIsSilentIff | unica/pkg/domain/validator.go:76-231 | checkClaims reports nothing for one copied tag if and only if its scope is not empty or its property has one distinct value list |
| Versions.VersionTable.Publish | unica/admin/internal/repository/promptversions.go:145-196 | one transaction: the new row is MAX+1, active and the only change besides retiring its predecessor; a failure at any stage leaves the rows as they were |
| Versions.VersionTable.Rollback | unica/admin/internal/repository/promptversions.go:205-239 | the named row becomes the active one, its pushed_at cleared on the prompt table; an unknown version or a failure leaves the rows as they were |
| Versions.VersionTable.ClearOverride | unica/admin/internal/repository/model_version.go:249-266 | retires the rows of exactly that id and reports whether one was active; an empty id is refused |
| Versions.VersionTable.MarkPushed | unica/admin/internal/repository/promptversions.go:356-370 | marks the row of that id and no other |
| Versions.VersionTable.Active | unica/admin/internal/repository/model_version.go:124-142 | the scope's active row, nothing when it has none |
| Versions.VersionTable.Get | unica/admin/internal/repository/promptversions.go:268-285 | finds a row of that version exactly when there is one |
| Versions.VersionTable.ActiveOverrides | unica/admin/internal/repository/model_version.go:318-346 | an entry for exactly the lines with an active override, each its active row; none for the platform |
| Versions.ActiveIsTheOne | unica/admin/internal/repository/promptversions.go:248-264 | with one active row per scope, any active row of the scope is the one a read returns |
| VersionRuns.LatestIsCount | unica/admin/internal/repository/promptversions.go:167-174 | MAX(version) is the number of rows of the scope |
| VersionRuns.VersionsAreOneToN | unica/admin/internal/repository/model_version.go:178-185 | the versions of a scope are exactly 1..n, each once |
| VersionRuns.PublishPreserves | unica/pkg/domain/store.go:147-186 | a publish keeps numbering, one active row per scope and fresh ids, and every stored content |
| VersionRuns.RollbackPreserves | unica/pkg/domain/store.go:189-218 | so does a rollback, with or without clearing pushed_at |
| VersionRuns.ClearPreserves | unica/admin/internal/repository/model_version.go:249-266 | so does clearing an override |
| VersionRuns.MarkPreserves | unica/admin/internal/repository/model_version.go:214-228 | so does marking a push |
| VersionRuns.SoundOverRuns | unica/admin/internal/repository/promptversions.go:412-432 | every run of any mix of them keeps all of it, and no stored row ever changes id, scope, version or content |
| VersionRuns.EveryRunIsSound | unica/admin/internal/repository/model_version.go:163-266 | from empty tables: at most one active row per scope, one as soon as a prompt or ontology row exists, versions exactly 1..n |
| VersionRuns.RunLeavesOtherScopes | unica/admin/internal/repository/model_version.go:72-73 | a run that never addresses a scope leaves its rows and its active row as they were |
| VersionRuns.RollbackIsActive | unica/admin/internal/repository/promptversions.go:205-239 | a rollback puts the scope on the stored row of that version, content unchanged |
| VersionRuns.RollbackUndoesPublish | unica/pkg/domain/store.go:189-218 | publishing and rolling back returns to the row before, on the prompt table waiting to be projected again |
| VersionRuns.ClearReturnsToPlatform | unica/admin/internal/repository/model_version.go:249-266 | clearing leaves the line without an active row and the platform on the row it was on |
| VersionRuns.MarkedActive | unica/admin/internal/repository/model_version.go:214-228 | a mark sets pushed_at of the row it names and leaves every scope on the row it was on |
| VersionRuns.LateMarkIsHarmless | unica/admin/internal/repository/promptversions.go:356-370 | a projection that finishes after another publish changes no scope's active row |
| VersionRuns.TransactionsAreWhole | unica/admin/internal/repository/promptversions.go:145-246 | a transaction that fails at any point leaves the rows as they were and says so; one that does not tells whether it found what it was to change |
| PromptPush.PromptConsole.PushOne | unica/admin/internal/platform/prompts.go:599-693 | publish, project, mark, each of which may fail, as one transition of table and Dify |
| PromptPush.PromptConsole.UpdatePrompt | unica/admin/internal/tenant/aisettings/aisettings.go:848-904 | a save: refused, stored or reused, then projected |
| PromptPush.PromptConsole.ResetPrompt | unica/admin/internal/tenant/aisettings/aisettings.go:1138-1183 | the same write with the platform template |
| PromptPush.PromptConsole.StoreTheRevision | unica/admin/internal/tenant/aisettings/aisettings.go:917-934 | the active revision is reused when it holds the text; a failed read counts as none |
| PromptPush.PromptConsole.ProjectPrompt | unica/admin/internal/tenant/aisettings/aisettings.go:945-998 | the revision is marked only after its text arrived |
| PromptPush.PromptConsole.UpdateSystemPrompt | unica/admin/internal/bridge/dify.go:937-998 | a write that is read back as sent, fails before it wrote, or fails after and leaves the app with any text |
| PromptPush.PromptConsole.RollbackPrompt | unica/admin/internal/tenant/aisettings/aisettings.go:1007-1077 | read, refuse or roll back, then project |
| PromptPush.PromptConsole.SeedLine | unica/admin/cmd/promptaudit/audit.go:229-263 | stores what Dify holds when the line has no revision, and writes nothing there |
| PromptPush.PromptConsole.RecordProvisionedPrompt | unica/admin/internal/identity/tenants_provision.go:153-192 | the first revision of a newly bound app |
| PromptSafety.StepPreserves | unica/admin/internal/platform/prompts.go:599-693 | every push, save, reset, rollback, seed, provisioning and hand edit keeps the invariant |
| PromptSafety.PushedIsWhatDifyWasGiven | unica/admin/internal/platform/prompts.go:658-676 | in every run an active revision with pushed_at set holds the text the console last sent to its app, or read there |
| PromptSafety.StepEffectiveIff | unica/admin/internal/tenant/aisettings/aisettings.go:918-970 | one write or hand edit leaves a line's pushed revision in effect if and only if it neither edits that text away nor resends the pushed revision and leaves another text behind |
| PromptSafety.PushedIsInEffectIff | unica/admin/internal/repository/promptversions.go:350-370 | over a whole run a pushed active revision is always the text customers are answered with, if and only if no step does that |
| PromptSafety.PushedIsInEffect | unica/admin/internal/bridge/dify.go:974-993 | it is while nobody edits the apps by hand and every failed write leaves its own text or changes nothing |
| PromptSafety.ResendLies | unica/admin/internal/tenant/aisettings/aisettings.go:934-937 | a run in which the active text is saved again, Dify is left with another, and the revision keeps claiming to be in effect |
| PromptSafety.ReportIsTrue | unica/admin/internal/tenant/aisettings/aisettings.go:936-998 | not stored, stored and in effect are each reported truly |
| PromptSafety.RefusedIff | unica/admin/internal/tenant/aisettings/aisettings.go:848-1056 | a write is refused exactly for a line without an app, a blank text or one that breaks the contract, and a rollback also for a missing revision; a refused write leaves everything as it was |
| PromptSafety.RetryCutsNoRevision | unica/admin/internal/tenant/aisettings/aisettings.go:906-934 | writing again a text that was stored but did not arrive adds no revision and finishes the job |
| PromptSafety.RollbackRestores | unica/admin/internal/tenant/aisettings/aisettings.go:1057-1077 | a rollback projects the stored text of that version, and says pushed only once it arrived |
| PromptSafety.SeedAdoptsLive | unica/admin/cmd/promptaudit/audit.go:222-263 | seeding adopts the app's own text as an active, pushed revision and sends nothing |
| PromptSafety.FirstRevisionIsObserved | unica/admin/internal/identity/tenants_provision.go:132-192 | the first revision claims to be pushed only when it is the text the app was seen to carry |
| PromptSafety.KeepingPushedAtIff | unica/admin/internal/repository/promptversions.go:198-204 | a rollback that kept pushed_at would be honest exactly when the row was never pushed, its text was sent, or was the last one sent before; and true exactly when the row was never pushed or is what the app is left with |
| PromptSafety.KeepingPushedAtLies | unica/admin/internal/repository/promptversions.go:198-204 | a run in which it would not be |
| ModelWrite.ModelConsole.VerificationTarget | unica/admin/internal/platform/platform.go:859-887 | the loop with its fallback picks the specification's target |
| ModelWrite.ModelConsole.WriteModel | unica/admin/internal/bridge/dify.go:820-900 | validated, then written and read back, refused untouched, or landed with unknown effect |
| ModelWrite.ModelConsole.HandleModel | unica/admin/internal/platform/platform.go:665-848 | the whole endpoint as one transition of table and apps with its answer |
| ModelWrite.ModelConsole.VerifyOn | unica/admin/internal/platform/platform.go:757-834 | try, store, and put the borrowed app back |
| ModelWrite.ModelConsole.ResolveLine | unica/admin/internal/tenant/aisettings/modeloverride.go:507-535 | the line's own active row, then the platform's, then the built-in value |
| ModelWrite.ModelConsole.SetLine | unica/admin/internal/tenant/aisettings/modeloverride.go:296-427 | one line's override, tried on its own app before it is stored |
| ModelWrite.ModelConsole.ClearLine | unica/admin/internal/tenant/aisettings/modeloverride.go:436-500 | the override is dropped in the store first, in Dify second |
| ModelWrite.ModelConsole.PushOne | unica/admin/internal/platform/models.go:583-658 | pins what the line resolves to and marks the revision behind it |
| ModelWrite.ResolveScopeIsResolve | unica/admin/internal/platform/models.go:759-773 | the fallback over the map of overrides is the fallback over the rows |
| ModelWrite.ProvisioningAgrees | unica/admin/internal/identity/dify_line.go:490-516 | provisioning's copy of the order resolves every line to the same model and tier |
| ModelSafety.TargetIs | unica/admin/internal/platform/platform.go:859-887 | there is a target exactly when some line has an app; an overridden one is chosen only when every bound line is overridden, and then the first |
| ModelSafety.PlatformPublishResolves | unica/admin/internal/platform/models.go:759-773 | a platform publish moves the lines without an override and no other |
| ModelSafety.VerifiedAppIsConsistent | unica/admin/internal/platform/platform.go:665-848 | without a revert error the verification app was left untouched or carries exactly what its line resolves to, and the active platform row changes exactly when Changed is answered |
| ModelSafety.SecondWriteIsNoOp | unica/admin/internal/platform/platform.go:720-726 | the same write again verifies, stores and changes nothing |
| ModelSafety.SetIsConsistent | unica/admin/internal/tenant/aisettings/modeloverride.go:296-427 | the same guarantee for an override write, which never moves the platform row |
| ModelSafety.ClearIsConsistent | unica/admin/internal/tenant/aisettings/modeloverride.go:436-500 | a cleared line resolves to the platform and its app carries that, or the answer says the projection is missing |
| ModelSafety.VerifyIsConsistentIff | unica/admin/internal/platform/platform.go:742-848 | on any line, a write without a revert error leaves the verification app inconsistent if and only if it changed the platform through an overridden line whose id is the nil uuid and whose own model is another |
| ModelSafety.NilLineIsDragged | unica/admin/internal/repository/model_version.go:67-73 | a line whose id is the nil uuid always loses its override to such a write and is put back on it all the same |
| ModelSafety.NilLineExists | unica/admin/internal/repository/model_version.go:67-73 | such a write exists |
| ModelRuns.PlatformKeepsOverrides | unica/admin/internal/platform/platform.go:819-834 | a platform write leaves every override in force in the table |
| ModelRuns.PushKeepsOverrides | unica/admin/internal/platform/models.go:583-658 | a successful push leaves the app on what its line resolves to |
| ModelSafety.PushMarksItsRow | unica/admin/internal/platform/models.go:583-658 | a successful push marks the active revision behind what the line resolves to, its own or the platform's, and no other row |
| ModelSafety.PushMarksNothingElse | unica/admin/internal/platform/models.go:583-658 | without such a revision it marks nothing |
| ModelAnswers.AcceptableIff | unica/admin/internal/platform/platform.go:665-726 | a request is acceptable if and only if it names provider, model and mode and gives a temperature within 0 and 2 and at least 2048 tokens; Dify is then asked for exactly what it names |
| ModelAnswers.PlatformAnswers | unica/admin/internal/platform/platform.go:665-848 | each answer of the platform write is given exactly in its case, in the code's order, and says truly whether the borrowed app was put back |
| ModelAnswers.OverrideAnswers | unica/admin/internal/tenant/aisettings/modeloverride.go:296-427 | the same for an override write |
| ModelAnswers.ClearAnswers | unica/admin/internal/tenant/aisettings/modeloverride.go:436-500 | the same for dropping an override |
| ModelAnswers.PushAnswers | unica/admin/internal/platform/models.go:583-658 | a push succeeds if and only if the line has an app, its rows can be read, its resolved model can be written, and the app takes it; one that fails marks nothing |
| ModelRuns.OverridesStayInForce | unica/admin/internal/platform/platform.go:665-848 | over every run of the four writes a line with an override keeps answering on it, unless an answer reported something left undone |
| FactCache.Ttl | unica/pkg/domain/store.go:39-44 | a ttl that is not positive becomes the default |
| FactCache.Store.Active | unica/pkg/domain/store.go:51-81 | an undisturbed read is its four steps in a row |
| FactCache.StepPreserves | unica/pkg/domain/store.go:51-114 | every interleaved step keeps: each entry and each read in flight holds what a query of this run found |
| FactCache.ServedWasActive | unica/pkg/domain/store.go:51-114 | whatever is returned was active at the query of the load it came from; without a database error, at most ttl plus that load's own query-to-store gap before the return |
| FactCache.CachedReadNeverFails | unica/pkg/domain/store.go:56-74 | an entry younger than the ttl is served unasked, an old one gives way to the database, and only a failed query brings it back |
| FactCache.InvalidateReloadsIff | unica/pkg/domain/store.go:105-114 | however the run goes on with a positive ttl, every read begun after an invalidation is answered from a query made after it, if and only if no load of the line had queried and not yet stored at that moment |
| FactCache.ReloadedValue | unica/pkg/domain/store.go:105-114 | and such an answer was active at a moment after the invalidation |
| FactCache.LateLoadUndoesInvalidate | unica/pkg/domain/store.go:76-78 | with one under way a read begun after publish and invalidation can be answered with the ontology before them |
| DifyLine.LineProvisioner.CreateApp | unica/admin/internal/identity/dify_line.go:224-287 | app, key and model pin, each with its own failure |
| DifyLine.LineProvisioner.PersistDifyBinding | unica/admin/internal/identity/dify_line.go:346-373 | which write is made depends on what is new |
| DifyLine.LineProvisioner.EnsureDatasetAttached | unica/admin/internal/identity/dify_line.go:392-408 | asks first and writes only what is missing |
| DifyLine.LineProvisioner.EnsureDatasetRetrieval | unica/admin/internal/identity/dify_line.go:424-464 | writes on two of four verdicts |
| DifyLine.LineProvisioner.EnsureDifyLine | unica/admin/internal/identity/dify_line.go:189-337 | the whole walk: rows, Dify, steps, ready and stopped |
| DifyLine.LineProvisioner.ProvisionDifyLine | unica/admin/internal/identity/tenants_provision.go:88-110 | the answer with what a stopped run left behind |
| LineSafety.CreatedIsReferencedOrNamed | unica/admin/internal/identity/tenants_provision.go:118-130 | every app and dataset a run creates is held by the line's row or named in the answer, never both, and nothing else is named |
| LineSafety.RowsAfter | unica/admin/internal/identity/dify_line.go:346-373 | other lines are untouched, an id once set stays, and the API key changes only in a run that created the app, to the key minted for it |
| LineSafety.ChangedIsHonest | unica/admin/internal/identity/dify_line.go:116-125 | changed is reported exactly when a step was performed; else nothing was created and no row written |
| LineSafety.ReadyIsComplete | unica/admin/internal/identity/dify_line.go:335-336 | a ready run leaves app, dataset, attachment and a searchable dataset |
| LineSteps.AttachStep | unica/admin/internal/identity/dify_line.go:392-420 | asks first and attaches the pair exactly when the app does not list it |
| LineSteps.RetrievalStep | unica/admin/internal/identity/dify_line.go:424-464 | on an existing dataset writes the retrieval if and only if its settings are unset or mismatched, on a new one if and only if the write at its creation did not take; no other dataset moves |
| LineSteps.CreateSteps | unica/admin/internal/identity/dify_line.go:189-344 | what is missing is created and said to be done, what is there is left alone and said to be there |
| LineSteps.StopsIff | unica/admin/internal/identity/dify_line.go:189-344 | a run stops if and only if it cannot log in, create what is missing, or write it back |
| LineSteps.BoundLineRun | unica/admin/internal/identity/dify_line.go:189-464 | on a line with app and dataset a run writes what is missing or wrong and nothing else, says so step by step, and is ready if and only if neither half failed |
| LineSafety.CompleteIsFixed | unica/admin/internal/identity/dify_line.go:189-337 | on such a line a run that can look does nothing at all and says so |
| LineSafety.ReadyRunsSettle | unica/admin/internal/identity/dify_line.go:189-337 | a run directly after a ready one writes nothing, reports Changed = false and Ready = true |
| LineSafety.OneGoodRunSuffices | unica/admin/internal/identity/dify_line.go:169-188 | after any failures one run that meets none brings the line up to standard |
| LineSafety.NothingOrphaned | unica/admin/internal/identity/tenants_provision.go:81-87 | over any runs over any lines whatever was created is referenced by a row or was named in an answer |
| LineSafety.AppsAreConserved | unica/admin/internal/identity/dify_line.go:222-244 | the apps created for a line are those named in answers and the one its row came to hold |
| LineSafety.DatasetsAreConserved | unica/admin/internal/identity/dify_line.go:289-308 | the same for datasets |
| Onboarding.TenantHandler.EnsureAgent | unica/admin/internal/bridge/chatwoot.go:215-249 | a taken email is refused; a created user is returned with its token even when linking failed |
| Onboarding.TenantHandler.CompleteChatwootBinding | unica/admin/internal/identity/tenants_onboarding.go:404-489 | user, then inbox, each stored before the next call |
| Onboarding.TenantHandler.EnsureChatwoot | unica/admin/internal/identity/tenants_onboarding.go:337-395 | the stored block decides where the run resumes |
| Onboarding.RunAfter | unica/admin/internal/identity/tenants_onboarding.go:331-489 | a run makes at most one account, user and inbox: an account exactly when the line comes to have a block or its write failed, and so for the inbox; nothing stored is lost |
| Onboarding.ConfiguredMeans | unica/admin/internal/identity/tenants_onboarding.go:487-488 | Configured = true means the stored block carries the token and the inbox id |
| Onboarding.ConfiguredSettles | unica/admin/internal/identity/tenants_onboarding.go:352-361 | a further run creates nothing and says configured |
| Onboarding.CreatedIffMade | unica/admin/internal/identity/tenants_onboarding.go:322-329 | created is reported exactly when something came to exist in Chatwoot |
| Onboarding.ColumnFollowsBlock | unica/admin/internal/identity/tenants_onboarding.go:337-402 | the line's account column is its block's account after every run that gets to a block and can write it; no other column moves |
| Onboarding.MadeIff | unica/admin/internal/identity/tenants_onboarding.go:337-490 | exactly when a run makes an account, a user and an inbox, from what is stored, what exists and which calls fail |
| Onboarding.UnstoredIsSaid | unica/admin/internal/identity/tenants_onboarding.go:337-490 | what was made and could not be written into the block is answered as such, and only that; the block does not show it |
| Onboarding.AnswerTells | unica/admin/internal/identity/tenants_onboarding.go:337-490 | each reason is answered exactly in its case, in the order in which a run gets to them; configured is answered when there is none |
| Onboarding.LinkedByItsCreator | unica/admin/internal/identity/tenants_onboarding.go:452-458 | the run that obtains the token and answers configured has linked the user; no later run links anybody |
| Onboarding.ConfiguredWithoutLink | unica/admin/internal/identity/tenants_onboarding.go:452-458 | two runs after which the tenant is reported configured and its administrator is not a member of the account |
| Onboarding.LinkedIff | unica/admin/internal/identity/tenants_onboarding.go:417-465 | over any runs beside others: once the block has the token, its user is a member of the account if and only if no run for the line answered that linking failed |
| Onboarding.ConfiguredIsLinkedIff | unica/admin/internal/identity/tenants_onboarding.go:487-488 | so configured means linked exactly when none of the line's runs answered so |
| Onboarding.CanFinishIff | unica/admin/internal/identity/tenants_onboarding.go:397-403 | a run that meets no failure finishes exactly when the block has the token or the email is still free |
| Onboarding.AccountsAreConserved | unica/admin/internal/identity/tenants_onboarding.go:363-387 | over any runs the accounts made for a line are those whose block write failed and the one its block refers to |
| Onboarding.InboxesAreConserved | unica/admin/internal/identity/tenants_onboarding.go:467-485 | the same for inboxes |
| Onboarding.UsersAreMadeOnce | unica/admin/internal/bridge/chatwoot.go:135-155 | an email gets one user in any run |
| Onboarding.ExactlyOnce | unica/admin/internal/identity/tenants_onboarding.go:331-336 | while every block is stored, a line gets at most one account and one inbox and an email one user, however often onboarding is run |
| Onboarding.StuckIsReached | unica/admin/internal/identity/tenants_onboarding.go:445-450 | a run whose token write fails leaves such a state |
| Onboarding.StuckForGood | unica/admin/internal/identity/tenants_onboarding.go:429-434 | once the user exists and its token is not in the block, repeating the request never finishes it |

## Left out

- Hypotheses of the tag results: `Validate` does not enforce that printed identifiers and values are trimmed, non-empty and free of the tag's own punctuation, that labels resolve unambiguously, that stored values are canonical, or that a situation is stated once; `Render.Printable` and `CopiedTags.Unambiguous` state these.
- BreakerRuns.SuppressionIsBounded: float rounding of the rate and the 64-bit wrap of a huge configured cooldown are not modelled.
- Breaker: the mutex; each call is one step, as it is under the lock.
- Messages: the wording, wanted values and labels in violations, steps, warnings and HTTP answers; only their kind is kept.
- checkCompanions and checkDenials, the text heuristics, scene strategies and alerting: single passes that add no state.
- renderFacts and renderDenials: prose output that nothing parses back.
- Validate reports the first fault only; which one depends on map order and is not specified beyond being a real one.
- Claims: a cleaned text may contain a new tag where removing a span joined its neighbours; removal is stated span by span.
- Session: expiry of refresh tokens, closed or duplicated tabs, storage that throws, lost replies, the pruning and sorting of the saved accounts, and the rest of an api request.
- A logout does not win over a renewal in flight: the granted pair is adopted unconditionally, and no theorem says otherwise.
- SessionWorld.AuthServer.HandleLogin: password checks, JWT signing and the portal role are library calls and single checks.
- Versions: deletion of a product line, which cascades to its rows, and concurrent transactions beyond their atomicity.
- Versions.VersionTable.Publish: the tables' own checks of the content are one flag given by the caller.
- PromptPush: the contract check of a prompt is one flag; the config_json origin record, audit rows and batches over many lines are not part of this model. A deployment without a version store writes Dify alone and is not modelled.
- ModelWrite: a rejected write is taken to have left the app untouched, as the bridge says of it; JSON shapes, the note and the audit row are not part of this model.
- ModelRuns.OverridesStayInForce: lines without an override are meant to lag behind a new platform default until pushed, so nothing is claimed of their apps.
- FactCache: the return of a read is taken at its last step; scheduling after it is not counted. Decoding a stored ontology is part of the query's success.
- DifyLine: retries inside the bridge, app deletion by hand and the model written by the pin; a create call that fails is taken to have created nothing.
- Onboarding: the product line and portal account steps, the agent id recorded on the portal account, and passwords.
- Onboarding.ConfiguredMeans: a block stored by hand with an inbox and a token counts as configured, as in the code.
- RBAC, routing, rate limits, channel adapters, setup scripts and configuration loading: plumbing without an invariant of its own.
