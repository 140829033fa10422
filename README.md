# Reliquary accounts, flocks and device authorization

A Dafny model of the account service in reliquary. Reliquary runs two
services:

- The **API** answers clients and the account web pages.
- The **sync job** turns the database into key files and the settings that
  a cathedral (the relay) loads.

The model covers the following.

- **Tables.** The `accounts` database has accounts, session tokens, flocks
  (`networks`), enrolled devices, cross-flock links (`xflocks`) and
  cathedrals. Each table is a sequence of rows in insertion order
  (`tables.dfy`).
- **Statements.** Every SQL statement of `src/api/queries.py` is a function
  from the table state to the rows a `SELECT` returns, or to the new state
  and the `RETURNING` rows a change leaves (`queries.dfy`).
- **The request gate.** The three pre-request hooks are the rate limiter,
  `token_fetch` and `token_verify`. Together they decide which requests
  reach a handler, and with which account.
- **The handlers.** These are the methods of a class `Api` over the
  database and the published ambry files. The model includes the key-slot
  (KEK) allocator of `device_approve`, as the loop over a 256-entry array
  that the handler runs (`api.dfy`).
- **The sync job.** It is a class `Sync` holding the run counter, the
  settings text under construction and the shared file tree:
  - one run collects the flocks whose owner still has subscription time;
  - it writes each approved device's `.key` and `.pub` files through a
    temporary file and a rename;
  - it stops at the first stored key that does not decode;
  - it publishes `settings.conf` only when every flock was synced
    (`sync.dfy`).
- **Text formats.** This covers Python's `hex()`, `f"{n:02x}"`,
  `bytes.hex()`, `bytes.fromhex()` and `str(int)`, the newline-joined
  settings text, and byte-wise string order (`text.dfy`, with generic
  sequence helpers in `util.dfy`).

What is proved, besides each operation's own contract:

- **The gate.**
  - A request gets through with an account only if it presented a token of
    that account on the channel its path uses: the cookie for account pages,
    the `x-token` header elsewhere.
  - Tokens never cross channels.
  - An expired token keeps authenticating until the reaper removes it.
  - A lapsed subscription reaches only the account pages.
- **The KEK allocator.** It picks the smallest slot in 1..255 that no device
  of the flock holds, provided every device row names, through its flock id,
  a flock carrying the token it stores.
  - Approving with that slot keeps the approved devices' slots distinct only
    when at most one pending device of the flock carries the device id being
    approved (`Api.AllocateThenApproveKeepsSlotsDistinct`, over the slot
    `device_approve` takes from the allocator).
  - That proviso is needed. `SQL_DEVICE_APPROVE` approves every pending row
    with that flock token and device id, and a device id is 4 random bytes
    that nothing keeps unique within a flock. When two pending devices' ids
    collide, both get the one slot (`Api.CollidingIdsShareSlot`).
- **Flock quota.** The quota is preserved by `flock_create`.
- **Settings.**
  - The settings list exactly the approved devices of live flocks, plus the
    cathedrals.
  - A run that stops early builds a prefix of the full settings and leaves
    the previously published settings file untouched.
  - Key material as enrolment stores it always decodes back to the bytes the
    device sent.

## Model

| member | source | states |
|---|---|---|
| Queries.IpLe | src/api/queries.py:21-22 | the `ORDER BY cathedral_ip` comparison |
| Queries.IpLeIsTotalPreorder | src/api/queries.py:21-22 | the address order is a total preorder, so sorting by it is well defined |
| Queries.GetCathedrals | src/api/queries.py:16-23 | the rows are exactly the cathedrals (as a multiset) and are ordered by address |
| Queries.AccountFromKey | src/api/queries.py:25-32 | the rows are exactly (id, expiry) of the accounts whose key matches, one per such account |
| Queries.AccountsOf | src/api/queries.py:34-56 | a token joins with some `account_info` row exactly when its account exists |
| Queries.AccountInfo | src/api/queries.py:34-56 | the `account_info` part is non-empty exactly when some token of that value and channel belongs to an existing account |
| Queries.AccountFromToken | src/api/queries.py:34-56 | rows appear exactly when a session exists; no rows means no change; otherwise every token of that value has expiry now + 30 days, and there is one row per such token |
| Queries.AccountFromTokenRows | src/api/queries.py:34-56 | every row carries a token of that value with the refreshed expiry and the first `account_info` row |
| Queries.AccountInfoHead | src/api/queries.py:34-56 | the first `account_info` row is the account of a token of that value and channel |
| Queries.LookupRefreshesExpiry | src/api/queries.py:34-56 | a successful lookup sets the expiry of every token with that value to now + 30 days |
| Queries.UniqueTokenSingleRow | src/api/queries.py:34-56 | a token value held once, with an existing account, yields exactly one row |
| Queries.SingleRowAccount | src/api/queries.py:34-56 | when every token with that value belongs to one account, the single row names that account |
| Queries.UniqueAtIndex | src/api/queries.py:34-56 | a value held only at one index is held only by that row |
| Queries.SingleRowIdentifiesToken | src/api/queries.py:34-56 | one row means exactly one token has that value, it is of the requested channel, and the row is its account's |
| Queries.ExpiredTokenStillAuthenticates | src/api/queries.py:34-56 | a token past its expiry still yields its account's row, and its expiry is pushed forward again |
| Queries.ChannelsDoNotCross | src/api/queries.py:34-56 | a token of the other channel yields no row and changes nothing |
| Queries.AccountCreate | src/api/queries.py:58-65 | one row is appended with the next serial id and the schema defaults, and that id is returned; nothing else changes |
| Queries.AccountDelete | src/api/queries.py:67-72 | exactly the account rows with that id are removed; no other table changes |
| Queries.DeletedAccountRejected | src/api/queries.py:67-72 | after deleting the account, its tokens remain but no longer authenticate |
| Queries.AccountTimeAdd | src/api/queries.py:74-81 | the matching accounts get expiry now + 31 days; all other rows and tables are unchanged |
| Queries.AccountTimeAddIdempotent | src/api/queries.py:74-81 | repeating the update at the same time changes nothing more |
| Queries.TokenCreate | src/api/queries.py:83-88 | appends one token with the default expiry; nothing else changes |
| Queries.NetworkCreate | src/api/queries.py:90-95 | appends one flock with the next serial id, the owner and the default ambry time |
| Queries.NetworkDelete | src/api/queries.py:97-103 | removes exactly the flocks with that token and owner, and returns one id per removed row |
| Queries.NetworkGet | src/api/queries.py:105-112 | selects exactly the flocks with that token and owner |
| Queries.NetworksByToken | src/api/queries.py:114-130 | selects exactly the flocks with that token, whatever their owner |
| Queries.TokenIfOwnerExists | src/api/queries.py:132-141 | the join of one flock with `accounts` yields its token exactly when its owner exists |
| Queries.NetworkList | src/api/queries.py:132-141 | a token is listed exactly when the owner exists and owns a flock with that token |
| Queries.NetworkListCount | src/api/queries.py:132-141 | with unique account ids, the list has one entry per flock of the owner |
| Queries.NetworkAmbryUpdate | src/api/queries.py:143-150 | stamps `now` on the owner's flocks with that token; all other rows are unchanged |
| Queries.XflockGet | src/api/queries.py:152-159 | the ids of exactly the links from src to dst of that owner |
| Queries.XflockCreate | src/api/queries.py:161-166 | appends one link with the next serial id |
| Queries.XflockCreateThenGet | src/api/queries.py:152-166 | a created link is found by the id lookup |
| Queries.XflockList | src/api/queries.py:168-176 | the (source, destination) token pairs of exactly the owner's links |
| Queries.LinkTargets | src/api/queries.py:178-194 | the inner selection yields exactly the destinations of the owner's links out of that flock |
| Queries.PeersNamed | src/api/queries.py:178-194 | one flock contributes a row exactly when its token is among the link targets |
| Queries.XflockListForFlock | src/api/queries.py:178-194 | a row is returned exactly when the owner links to that flock and a flock of that token exists with that owner |
| Queries.XflockDelete | src/api/queries.py:196-203 | removes exactly the caller's links from src to dst; no other table changes |
| Queries.XflockDeleteKeepsReverse | src/api/queries.py:196-203 | the reverse link declared by another owner survives the deletion |
| Queries.DeviceCreate | src/api/queries.py:205-220 | appends one unapproved device created at `now` with the next serial id, and returns that id |
| Queries.DeviceDelete | src/api/queries.py:222-230 | removes exactly the devices of that flock, device id and account, and returns one id per removed row |
| Queries.DeviceApprove | src/api/queries.py:232-243 | approves exactly the pending devices of that flock and device id with that slot; one row per changed device |
| Queries.ApproveLeavesNonePending | src/api/queries.py:232-243 | after approving, no matching device is pending |
| Queries.ApproveNonePending | src/api/queries.py:232-243 | with no pending match, approval returns nothing and changes nothing |
| Queries.DeviceApproveTwice | src/api/queries.py:232-243 | a second approval of the same device returns nothing and changes nothing |
| Queries.ListLe | src/api/queries.py:253-254 | `ORDER BY device_approved = 'f' DESC, device_kek ASC`: unapproved first, then by slot |
| Queries.ListLeIsTotalPreorder | src/api/queries.py:245-255 | the `ORDER BY` of the device list is a total preorder |
| Queries.ListRowsOf | src/api/queries.py:245-255 | one device joins exactly when it is the account's and its flock id names the account's flock of that token |
| Queries.DeviceList | src/api/queries.py:245-255 | lists exactly the owner's devices of that flock, unapproved first and then by slot |
| Queries.DeviceListCount | src/api/queries.py:245-255 | with unique flock ids, one row per device of the owner's flock, even for devices that agree on every listed column |
| Queries.SlotRowsOf | src/api/queries.py:257-265 | one device joins exactly when its flock id names a flock of that token |
| Queries.DeviceListAllForNetwork | src/api/queries.py:257-265 | the (slot, device id) of exactly the devices of that flock, approved or not |
| Queries.DeviceRenew | src/api/queries.py:267-276 | replaces the secret of exactly the account's devices with that id; returns (id, flock, slot) of each |
| Queries.DevicePubkey | src/api/queries.py:278-287 | replaces the public key of exactly the account's devices with that id; returns that id once per row |
| Queries.ExpireTokens | src/api/queries.py:289-294 | keeps exactly the tokens whose expiry is not before `now` |
| Queries.ReapedTokenRejected | src/api/queries.py:289-294 | once reaped, an expired token no longer authenticates |
| Api.IsDeviceCreatePath | src/api/api.py:54-55 | the `re.findall` test of the device-create path, with Python's `$` matching before a final newline (its meaning: `Api.DeviceCreatePathShape`) |
| Api.Bypass | src/api/api.py:51-56 | the paths both hooks let through without a token: the login page, the unauthenticated URLs and the device-create paths |
| Api.TokenFetch | src/api/api.py:49-97 | a request it stops always has a response set; a request outside the bypassed paths that it lets through always has an account |
| Api.Admit | src/api/api.py:84-97 | refuses exactly a lapsed subscription outside the account pages, and the refusal is 403 "account expired"; otherwise the context names the row's account and a remaining time that is never negative; the tables are unchanged |
| Api.TokenVerify | src/api/api.py:99-109 | outside the bypassed paths, an account must be set (its consequence: `Api.GateAlwaysAnswers`) |
| Api.DeviceCreatePathShape | src/api/api.py:54-55 | the device-create bypass accepts exactly `/v1/device/<16 lowercase hex>/create`, optionally followed by one newline |
| Api.Prerequest | src/api/api.py:40-109 | a rate-limited request gets an empty 429 and changes nothing; a bypassed path goes on without an account and changes nothing |
| Api.GateAlwaysAnswers | src/api/api.py:99-109 | `token_verify` never stops a request that `token_fetch` let through |
| Api.GateRejectsUnknownToken | src/api/api.py:58-82 | a missing or unknown token gets a redirect on account pages and a 403 elsewhere, and changes nothing |
| Api.GateChannelsDoNotCross | src/api/api.py:58-82 | a cookie token never authenticates an API path, and an API token never authenticates an account page |
| Api.LapsedAccountRefused | src/api/api.py:58-93 | an API request whose token is held once and names a lapsed account is refused with 403 "account expired", after the lookup has refreshed the token's expiry |
| Api.LapsedRow | src/api/queries.py:34-56 | the single row found for a token held once carries its own account's expiry |
| Api.FetchSingleRow | src/api/api.py:58-93 | once the lookup returns a single row, `token_fetch` ends in `Admit` with that row and the refreshed tables |
| Api.AdmitContext | src/api/api.py:84-97 | from a session row, the gate stores that account's id, key and quota, and the remaining time |
| Api.FetchContext | src/api/api.py:50-97 | a single session row gives a context naming the token's own account |
| Api.GateAdmits | src/api/api.py:40-109 | a request that goes on with an account presented that account's token on its path's channel; a lapsed subscription gets only account pages, with zero time left |
| Api.AllocateSpec | src/api/api.py:434-446 | the slot chosen is the smallest in 1..255 that no device holds; none is found exactly when all are held; an error occurs exactly when a stored slot is 256 or more |
| Api.PickSlot | src/api/api.py:434-446 | the array scan returns the allocator's choice |
| Api.KeksOf | src/api/api.py:434-446 | the slots, in the order of the rows |
| Api.AllocatedSlotUnheld | src/api/api.py:429-446 | when every device row names, through its flock id, a flock with the token it stores, the chosen slot is held by no device of the flock |
| Api.ApprovalKeepsSlotsDistinct | src/api/api.py:429-455 | approving with an unheld slot keeps the approved slots of the flock distinct, provided at most one pending device of the flock carries that device id |
| Api.AllocateThenApproveKeepsSlotsDistinct | src/api/api.py:429-455 | under `Linked`, with distinct slots so far and at most one pending device of the flock carrying the device id, approving with the slot the allocator picks keeps the flock's approved slots distinct |
| Api.CollidingIdsShareSlot | src/api/api.py:452-455 | two pending devices of a flock with the same device id are both approved with the one slot, so the approved slots are no longer distinct |
| Api.FirstFree | src/api/api.py:441-446 | the first slot from a given position on that is not slot 0 and not held (its properties: `Api.FirstFreeSpec`) |
| Api.FirstFreeSpec | src/api/api.py:441-446 | the slot found is the first free one at or after the start, never 0; none is found exactly when all from the start to 255 are held; it never reports out of range |
| Api.Allocate | src/api/api.py:434-446 | the slot `device_approve` picks: out of range when a stored slot is 256 or more, else the first free slot from 0 (its properties: `Api.AllocateSpec`) |
| Api.ApprovedMessage | src/api/api.py:460 | the approval reply ends with two lowercase hex digits that denote the slot |
| Api.FlockIdShape | src/api/api.py:305 | a flock id is 16 lowercase hex digits whose value has a zero low byte |
| Api.FlockQuotaKept | src/api/api.py:299-312 | when the owner was within the quota before `flock_create`, it is within it after |
| Api.CathedralLines | src/api/api.py:201-215 | one line per cathedral, in order |
| Api.CathedralLinesStep | src/api/api.py:205-213 | one more cathedral appends its line and a newline |
| Api.CathedralLineSingle | src/api/api.py:210-213 | a line contains no newline when the address and description do not |
| Api.CathedralListReadBack | src/api/api.py:201-215 | a client reading the list line by line gets back one line per cathedral, in address order |
| Api.CathedralText | src/api/api.py:204-213 | the loop builds the newline-joined lines of the cathedrals |
| Api.RegisteredTokenAuthenticates | src/api/api.py:237-265 | after `register`, the new token authenticates exactly the new account on the API channel, and nothing on the cookie channel |
| Api.FlockEntry | src/api/api.py:229-231 | the `{"id": token}` entry of one flock |
| Api.EnrollReply | src/api/api.py:345-349 | the enrolment reply: device id, secret and flock, the same three fields whether or not the flock exists |
| Api.DeviceJson | src/api/api.py:372-395 | one row of the `device_list` reply, every column rendered as the text the database returns |
| Api.CathedralLine | src/api/api.py:210-213 | one line of `cathedral_list`: `descr - ip:port`, or `ip:port` when the description is empty |
| Api.FlockEntries | src/api/api.py:217-235 | one `{"id": token}` entry per row, in order |
| Api.Api.constructor | src/api/api.py:111-194 | the service starts with the given database, files and configuration |
| Api.Api.Gate | src/api/api.py:40-109 | the gate's decision, and the tables after the token lookup |
| Api.Api.CathedralList | src/api/api.py:201-215 | a 200 response whose text is the lines of the cathedrals in address order |
| Api.Api.FlocksForAccount | src/api/api.py:217-235 | one entry per flock the account lists |
| Api.Api.Register | src/api/api.py:237-265 | a new account with the drawn key, a new API token for it, and the reply that names both |
| Api.Api.Init | src/api/api.py:267-297 | with exactly one account for the key: a new API token and the reply naming it; otherwise only the relay address, and no change |
| Api.Api.AccountLogin | src/api/api.py:499-537 | an invalid field gets a 400; an unknown key gets a redirect to login; a known key gets a new cookie token and a redirect to the account page |
| Api.Api.FlockCreate | src/api/api.py:299-312 | at the quota: refused and no change; otherwise a flock with the drawn id is created and its id returned |
| Api.Api.FlockList | src/api/api.py:314-321 | the reply lists the account's flocks |
| Api.Api.FlockDelete | src/api/api.py:323-332 | deletes the caller's flock with that token; the reply says whether exactly one row went |
| Api.Api.DeviceCreate | src/api/api.py:334-370 | wrong key size: 400 and no change; otherwise the same reply shape whether or not the flock exists, and a known flock gets an unapproved device with slot 0 and the key's hex |
| Api.Api.DeviceList | src/api/api.py:372-395 | only the owner gets the devices, and "no devices" when there are none |
| Api.Api.DeviceDelete | src/api/api.py:397-417 | only the owner deletes, and only their own device of that flock |
| Api.Api.DeviceApprove | src/api/api.py:419-462 | only the owner approves; with the allocator's slot; 400 when no slot is left, 500 for an out-of-range stored slot |
| Api.Api.AmbryUpload | src/api/api.py:464-491 | only the owner, and only for the two accepted sizes: the ambry replaces the flock's file through a temporary file and the flock is stamped |
| Api.Api.AccountDelete | src/api/api.py:551-559 | deletes the caller's account and redirects to the account page |
| Api.Api.AccountAddTime | src/api/api.py:561-569 | sets the caller's expiry to 31 days from now and redirects to the account page |
| Sync.TokenIfLive | src/api/sync.py:22-30 | one flock joins exactly when its owner's subscription runs past now |
| Sync.FlocksWithTimeLeft | src/api/sync.py:22-30 | each token of a flock whose owner has time left, exactly once |
| Sync.DevicesPerFlock | src/api/sync.py:39-50 | exactly the approved devices of that flock |
| Sync.FlockLines | src/api/sync.py:151-184 | the block of one flock: its opening line, one allow line per approved device, the ambry line and the closing brace |
| Sync.AllowLine | src/api/sync.py:160-181 | a device's line: its id, its slot as `hex()` writes it, and its bandwidth limit |
| Sync.AmbryLine | src/api/sync.py:183 | the flock's ambry line |
| Sync.FederateLine | src/api/sync.py:130-133 | a cathedral's `federate ip port` line |
| Sync.SettingsLines | src/api/sync.py:117-135 | the lines a complete run writes: the header, the blocks of the flocks with time left, and the federate lines |
| Sync.FlockLinesCut | src/api/sync.py:151-181 | a block cut after k devices is the opening line and the first k allow lines |
| Sync.BlocksConcat | src/api/sync.py:125-126 | the blocks of two runs of flocks concatenate |
| Sync.BlocksMember | src/api/sync.py:125-126 | a line is among the blocks exactly when it is in some flock's block |
| Sync.SettingsStartWithCounter | src/api/sync.py:122-124 | the text of every run starts with a header naming its counter |
| Sync.FlockLineKinds | src/api/sync.py:151-184 | every line of a block is the opening line, the ambry line, the closing brace, or an approved device's allow line |
| Sync.SettingsLineKinds | src/api/sync.py:117-184 | every settings line is the header, a line of a live flock's block, the allow line of an approved device of a live flock, or a cathedral's federate line |
| Sync.LiveApprovedListed | src/api/sync.py:121-181 | every approved device of a live flock has its allow line in the settings |
| Sync.AgreeOutsideTransitive | src/api/sync.py:153-179 | changes confined below a directory compose |
| Sync.DevicePathsUnder | src/api/sync.py:166-176 | every device file and temporary file lies under the identities directory |
| Sync.KeyPathNotPub | src/api/sync.py:166-176 | a device's `.key` file is neither its `.pub` file nor the temporary file of its `.pub` |
| Sync.PublishDevice | src/api/sync.py:159-179 | succeeds exactly when the stored hex decodes; the `.key` file holds the secret's bytes and the `.pub` file the public key's bytes (left alone for "NO-KEY"); nothing outside the identities tree changes |
| Sync.PublishAll | src/api/sync.py:159-181 | counts at most the devices given |
| Sync.PublishAllProgress | src/api/sync.py:159-181 | the devices counted all decode and the next one does not |
| Sync.PublishAllAgree | src/api/sync.py:159-181 | publishing a flock changes nothing outside the identities tree |
| Sync.PublishAllStep | src/api/sync.py:159-181 | publishing from position i is one device and then the rest |
| Sync.PublishDeviceSteps | src/api/sync.py:166-179 | a device's publication is its `.key` file, then its `.pub` file |
| Sync.FlockPublished | src/api/sync.py:159-181 | every device of a flock is published exactly when all its approved devices decode |
| Sync.SyncAll | src/api/sync.py:125-184 | flocks synced in order until the first whose devices do not all decode: the files, whether every flock was synced, and the lines written (its properties: `Sync.SyncAllLines`, `Sync.SyncAllOk`, `Sync.SyncAllAgree`) |
| Sync.Published | src/api/sync.py:166-179 | one file written through its temporary file: the renamed file when the hex decodes, the truncated temporary file left behind when it does not |
| Sync.SyncAllLines | src/api/sync.py:125-184 | the lines written are a prefix of the flocks' blocks, and all of them when every flock was synced |
| Sync.SyncAllOk | src/api/sync.py:125-184 | a run syncs all flocks exactly when every approved device's keys decode |
| Sync.SyncAllAgree | src/api/sync.py:125-184 | syncing changes nothing outside the identities tree |
| Sync.SettingsOutsideIdentities | src/api/sync.py:79-100 | the settings file and its temporary file are not under the identities tree |
| Sync.SyncKeepsSettings | src/api/sync.py:117-140 | syncing leaves a published settings file as it was, so a failed run keeps the previous settings |
| Sync.EnrolledDevicePublishes | src/api/api.py:356-361 | key material stored by enrolment always decodes, and the `.pub` file then holds exactly the bytes the device sent |
| Sync.RunLines | src/api/sync.py:117-135 | the lines a run builds: the header, the flock lines it got through, and the federate lines only when every flock was synced |
| Sync.RunLinesSettings | src/api/sync.py:117-140 | a complete run builds exactly the settings lines; a run cut short builds a prefix |
| Sync.RunTextPrefix | src/api/sync.py:117-140 | the text a run builds is a prefix of the text a complete run writes |
| Sync.SyncAllStep | src/api/sync.py:125-126 | syncing from position j is one flock and then the rest |
| Sync.FlockCut | src/api/sync.py:151-181 | the lines written before a failing device are the block cut at that point |
| Sync.FlockWhole | src/api/sync.py:151-184 | the lines written for an entirely synced flock are its whole block |
| Sync.Sync.constructor | src/api/sync.py:65-66 | the counter starts at zero |
| Sync.Sync.ConfigReset | src/api/sync.py:92-93 | the settings text is emptied |
| Sync.Sync.Config | src/api/sync.py:95-96 | appends one line to the settings text |
| Sync.Sync.ConfigWrite | src/api/sync.py:98-115 | on success, the text replaces `settings.conf` and no temporary file remains; on failure, nothing changes |
| Sync.Sync.PublishFile | src/api/sync.py:166-172 | the temporary file is created, then renamed over the target when the hex decodes; otherwise the empty temporary file is left behind |
| Sync.Sync.DeviceSync | src/api/sync.py:159-181 | one device's files, and its allow line when they decoded |
| Sync.Sync.DeviceLoop | src/api/sync.py:159-181 | devices are published in order until the first that does not decode, with one allow line each |
| Sync.Sync.FlockSync | src/api/sync.py:142-184 | the flock's files and its whole block, or the block cut before the first device that failed |
| Sync.Sync.FlockLoop | src/api/sync.py:125-126 | flocks are synced in order until one fails, as the sync function describes |
| Sync.Sync.CathedralLoop | src/api/sync.py:128-133 | one federate line per cathedral, in table order |
| Sync.Sync.RunOnce | src/api/sync.py:117-140 | the counter goes up by one; the settings are built and published only when every flock was synced and the write succeeded; otherwise the files are those the sync left |
| Text.HexDigitsValue | src/api/sync.py:160 | the digits `hex()` writes denote the number |
| Text.HexDigitsMinimal | src/api/sync.py:160 | those digits have no leading zero except for zero itself |
| Text.PyHexShape | src/api/sync.py:160 | `hex(n)` is `0x` followed by the unpadded digits of n |
| Text.Hex2Value | src/api/api.py:445 | `f"{n:02x}"` is two lowercase digits that denote n |
| Text.Hex2VersusPyHex | src/api/api.py:445-460 | the two-digit form differs from `hex()` only by padding below 16 |
| Text.DecimalRoundTrip | src/api/sync.py:124-133 | `str(n)` reads back as n |
| Text.BytesHex | src/api/api.py:361 | `bytes.hex()` writes two lowercase digits per byte |
| Text.FromHexBytesHex | src/api/api.py:361 | `bytes.fromhex(b.hex()) == b` |
| Text.FromHexLowerHex | src/api/api.py:356 | an even number of lowercase digits decodes, and encodes back to itself |
| Text.SplitJoinLines | src/api/sync.py:95-96 | newline-free lines joined with newlines read back line by line as the same lines |
| Text.JoinLinesPrefix | src/api/sync.py:95-96 | a prefix of the lines produces a prefix of the text |
| Text.StrLeTotal | src/api/queries.py:16-23 | the address order is total |
| Text.StrLeTransitive | src/api/queries.py:16-23 | the address order is transitive |

## Left out

- HTTP transport and the kore framework (routing, request parsing,
  `json.dumps` byte rendering, response encoding) are not modelled. A
  response is a status, a body (raw text or a JSON value) and headers.
- Routes: only the device-create bypass pattern is modelled
  (`IsDeviceCreatePath`). The handlers take the path parameters that the
  routes' patterns have already extracted and validated.
- The rate limiter (`src/ratelimit.py`) is not part of this model. Its
  verdict is the parameter `allowed`.
- `secrets.token_hex` and the clock are parameters. `time.time()` is a
  float, and the model uses an integer `now`.
- `Queries.DeviceCreate`: SQL_DEVICE_CREATE sets neither `device_approved`
  nor `device_created`, so both come from the schema, which is not part of
  this model. The model assumes a new device is unapproved and stamped with
  the `now` parameter, the time of the insert.
- Column defaults are a `Defaults` record. The schema that supplies them is
  not part of this model.
- The collation used for `ORDER BY cathedral_ip` is modelled as code-point
  order.
- Rows are kept in table order wherever a statement has no `ORDER BY`. This
  includes sync.py's own cathedral query at src/api/sync.py:32-37, which,
  unlike queries.py's, has no `ORDER BY`.
- Database connection failures and query exceptions are not modelled. In
  particular, the flock query in `run` raising before the counter is
  incremented is left out.
- Concurrency is not modelled: the handlers and the sync job run one at a
  time.
- Timers are not modelled: the 30-second `kore.suspend` of `run` and the
  reaper loop of `expire_tokens`. One pass is `RunOnce`; the reaper's
  statement is `ExpireTokens`.
- `configure` of both services is modelled only for the configuration it
  keeps: environment variables, privilege separation, seccomp (`allow`,
  `seccomp`) and the template loader are left out.
- The `account` page (GET `/account/` and the GET login page) renders
  jinja templates and is not modelled. `account_logout` only clears a
  cookie and redirects, and changes no state; it is not modelled either.
- The 500 branch of `register`, taken when the insert returns no row, is
  left out: the modelled insert always returns its row.
- `os.makedirs` is not modelled: the file tree is a map from paths to
  contents, with no directories.
- Api.Api.AmbryUpload: a write or rename failure in the handler is not
  modelled. Both calls are taken to succeed.
- Sync.Sync.ConfigWrite: a failure part-way through `config_write` (for
  instance a rename failing after the temporary file was written) is
  modelled as leaving the files unchanged. The stray temporary file is not
  modelled.
- Sync.Sync.RunOnce: the settings text is held as its list of lines, and the
  text itself stands for `JoinLines` of them. The string the Python code
  concatenates is that text.
- A negative `device_kek` is excluded by the type `nat`. Python's negative
  list indexing in `device_approve` is therefore not modelled.
- Api.Api.LoginCookie is the cookie `account_login` sets. It has no
  contract of its own: `AccountLogin` states the reply it is used in.
- Queries.AccountFromToken: the choice of join row is fixed. `UPDATE … FROM
  account_info` pairs each updated token with some `account_info` row, and
  the database does not say which when there are several. The model always
  takes the first. This matters only when several rows match, and the gate
  then refuses the request because it needs exactly one row.
- Queries.TokenCreate: the statement leaves `token_expires` to the column
  default, and the schema that defines that default is not part of this
  model. The constant `tokenExpires` stands for it. If the default depends
  on the clock (for instance now + 30 days), the model does not capture
  that; the first lookup then resets the expiry to now + 30 days anyway
  (`Queries.AccountFromToken`).
