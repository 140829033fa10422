/** The request handlers of `src/api/api.py`: the pre-request gate that
    authenticates a session token, and the handlers that compose the table
    statements of `Queries` into responses. The randomness the handlers draw
    (`secrets.token_hex`), the clock and the rate limiter's verdict are
    parameters; the HTTP transport is reduced to a status, a body and headers. */
module Api {
  import opened Util
  import opened Text
  import opened Tables
  import opened Queries

  // ----- responses -----

  /** A JSON document, before `json.dumps` renders it. */
  datatype Json = JStr(s: string) | JInt(i: int) | JArr(items: seq<Json>) | JObj(fields: seq<(string, Json)>)

  datatype Body = Raw(text: string) | Doc(doc: Json)

  datatype Response = Response(status: int, body: Body, headers: seq<(string, string)>)

  function Plain(status: int, text: string): Response
  {
    Response(status, Raw(text), [])
  }

  function Redirect(status: int, location: string): Response
  {
    Response(status, Raw(""), [("location", location)])
  }

  // ----- path classification (token_fetch, token_verify) -----

  const AccountUrls: seq<string> := ["/account/", "/account/time", "/account/delete", "/account/logout"]
  const UnauthedUrls: seq<string> := ["/v1/init", "/v1/register", "/v1/device/create"]
  const LoginPath: string := "/account/login"

  /** `/v1/device/<16 lowercase hex digits>/create`, exactly. */
  predicate DeviceCreateShape(s: string)
  {
    |s| == 34 && s[..11] == "/v1/device/" && IsLowerHex(s[11..27]) && s[27..] == "/create"
  }

  /** `re.findall("^/v1/device/([a-f0-9]{16})/create$", path)` is non-empty.
      Python's `$` also matches just before a newline that ends the string. */
  predicate IsDeviceCreatePath(path: string)
  {
    DeviceCreateShape(path) || (|path| > 0 && path[|path| - 1] == '\n' && DeviceCreateShape(path[..|path| - 1]))
  }

  /** The paths the gate lets through without a token. */
  predicate Bypass(path: string)
  {
    path == LoginPath || path in UnauthedUrls || IsDeviceCreatePath(path)
  }

  /** Account pages authenticate with the browser cookie (`token_web = 't'`). */
  predicate IsAccountPath(path: string)
  {
    path in AccountUrls
  }

  /** The device-enrollment paths that need no token are exactly the flock ids
      of sixteen lowercase hex digits, optionally followed by one newline. */
  lemma DeviceCreatePathShape(path: string)
    ensures IsDeviceCreatePath(path) <==>
            exists h :: |h| == 16 && IsLowerHex(h) && (path == "/v1/device/" + h + "/create" || path == "/v1/device/" + h + "/create\n")
  {
    if IsDeviceCreatePath(path) {
      var s := if DeviceCreateShape(path) then path else path[..|path| - 1];
      var h := s[11..27];
      assert s == "/v1/device/" + h + "/create";
      if !DeviceCreateShape(path) {
        assert path == s + "\n";
      }
    }
    if exists h :: |h| == 16 && IsLowerHex(h) && (path == "/v1/device/" + h + "/create" || path == "/v1/device/" + h + "/create\n") {
      var h :| |h| == 16 && IsLowerHex(h) && (path == "/v1/device/" + h + "/create" || path == "/v1/device/" + h + "/create\n");
      var s := "/v1/device/" + h + "/create";
      assert s[..11] == "/v1/device/" && s[11..27] == h && s[27..] == "/create";
      if path != s {
        assert path[..|path| - 1] == s;
      }
    }
  }

  // ----- the gate -----

  /** The request as the gate sees it: its path, the `token` cookie and the
      `x-token` header. */
  datatype Request = Request(path: string, cookie: Option<string>, xtoken: Option<string>)

  /** What the gate leaves on the request: `req.account`, `req.account_key`,
      `req.account_max_flocks` and `req.expires` (seconds of subscription left). */
  datatype AuthContext = AuthContext(account: nat, key: string, maxFlocks: int, expires: int)

  /** `Proceed` runs the handler (with the account, unless the path bypasses the
      gate); `Halt` stops with the given response (`None`: no response set). */
  datatype Gate = Proceed(auth: Option<AuthContext>) | Halt(response: Option<Response>)

  /** A gate decision and the tables after the token lookup. */
  datatype Gated = Gated(gate: Gate, db: Db)

  /** The token the request presents on the channel its path uses. */
  function TokenOf(req: Request): Option<string>
  {
    if IsAccountPath(req.path) then req.cookie else req.xtoken
  }

  /** A failed authentication: a redirect to the login page on account pages,
      an empty 403 elsewhere. */
  function Denied(path: string): Response
  {
    if IsAccountPath(path) then Redirect(301, LoginPath) else Plain(403, "")
  }

  /** `token_fetch`. The lookup refreshes the token's expiry whenever it finds a
      match, even when it then refuses the request. */
  function TokenFetch(db: Db, req: Request, now: int): (r: Gated)
    ensures r.gate.Halt? ==> r.gate.response.Some?
    ensures r.gate.Proceed? && !Bypass(req.path) ==> r.gate.auth.Some?
  {
    if Bypass(req.path) then Gated(Proceed(None), db)
    else
      match TokenOf(req)
      case None => Gated(Halt(Some(Denied(req.path))), db)
      case Some(value) =>
        var e := AccountFromToken(db, value, IsAccountPath(req.path), now);
        if |e.rows| != 1 then Gated(Halt(Some(Denied(req.path))), e.db)
        else Admit(e.rows[0].info, req.path, now, e.db)
  }

  /** The end of `token_fetch` once a single session row is found: a lapsed
      subscription is refused outside the account pages and reaches them with
      no time left. */
  function Admit(info: AuthRow, path: string, now: int, db: Db): (r: Gated)
    ensures r.db == db
    ensures r.gate.Halt? <==> info.timeLeft < now && !IsAccountPath(path)
    ensures r.gate.Halt? ==> r.gate == Halt(Some(Plain(403, "account expired")))
    ensures r.gate.Proceed? ==> r.gate.auth.Some? && r.gate.auth.value.account == info.accountId && r.gate.auth.value.expires >= 0
  {
    if info.timeLeft < now then
      if !IsAccountPath(path) then Gated(Halt(Some(Plain(403, "account expired"))), db)
      else Gated(Proceed(Some(AuthContext(info.accountId, info.key, info.flocksMax, 0))), db)
    else Gated(Proceed(Some(AuthContext(info.accountId, info.key, info.flocksMax, info.timeLeft - now))), db)
  }

  /** `token_verify`: outside the bypassed paths an account must have been set.
      (The account id arrives as text, so any row's id is truthy.) */
  predicate TokenVerify(path: string, auth: Option<AuthContext>)
  {
    Bypass(path) || auth.Some?
  }

  /** The three pre-request hooks in order: rate limit, `token_fetch`, `token_verify`. */
  function Prerequest(db: Db, req: Request, allowed: bool, now: int): (r: Gated)
    ensures !allowed ==> r == Gated(Halt(Some(Plain(429, ""))), db)
    ensures allowed && Bypass(req.path) ==> r == Gated(Proceed(None), db)
  {
    if !allowed then Gated(Halt(Some(Plain(429, ""))), db)
    else
      var f := TokenFetch(db, req, now);
      if f.gate.Halt? then f
      else if TokenVerify(req.path, f.gate.auth) then f
      else Gated(Halt(None), f.db)
  }

  /** `token_verify` never has anything left to refuse: every request either
      stops with a response or proceeds. */
  lemma GateAlwaysAnswers(db: Db, req: Request, allowed: bool, now: int)
    ensures Prerequest(db, req, allowed, now).gate != Halt(None)
  {
  }

  /** A missing token, or one that matches no session on the path's channel,
      is refused (redirect on account pages, 403 elsewhere) and changes nothing. */
  lemma GateRejectsUnknownToken(db: Db, req: Request, now: int)
    requires !Bypass(req.path)
    requires TokenOf(req).None? || !HasSession(db, TokenOf(req).value, IsAccountPath(req.path))
    ensures Prerequest(db, req, true, now) == Gated(Halt(Some(Denied(req.path))), db)
  {
  }

  /** A token issued for the browser cookie never authenticates an API request,
      and an API token never authenticates an account page. */
  lemma GateChannelsDoNotCross(db: Db, req: Request, now: int)
    requires !Bypass(req.path) && TokenOf(req).Some?
    requires forall t :: t in db.tokens && t.value == TokenOf(req).value ==> t.web != IsAccountPath(req.path)
    ensures Prerequest(db, req, true, now) == Gated(Halt(Some(Denied(req.path))), db)
  {
    ChannelsDoNotCross(db, TokenOf(req).value, IsAccountPath(req.path), now);
  }

  /** An API request whose token is held once and names an account whose
      subscription has lapsed is refused with 403 "account expired", after
      the lookup has refreshed the token's expiry. */
  lemma LapsedAccountRefused(db: Db, req: Request, now: int, i: nat)
    requires !Bypass(req.path) && !IsAccountPath(req.path)
    requires i < |db.tokens| && !db.tokens[i].web && TokenOf(req) == Some(db.tokens[i].value)
    requires forall j :: 0 <= j < |db.tokens| && j != i ==> db.tokens[j].value != db.tokens[i].value
    requires HasAccount(db, db.tokens[i].account)
    requires forall a :: a in db.accounts && a.id == db.tokens[i].account ==> a.timeLeft < now
    ensures Prerequest(db, req, true, now)
            == Gated(Halt(Some(Plain(403, "account expired"))), db.(tokens := Map(db.tokens, Refreshed(db.tokens[i].value, now))))
  {
    var t := db.tokens[i];
    UniqueTokenSingleRow(db, i, now);
    var e := AccountFromToken(db, t.value, false, now);
    LapsedRow(db, i, now);
    FetchSingleRow(db, req, now);
    var f := Admit(e.rows[0].info, req.path, now, e.db);
    assert f.gate == Halt(Some(Plain(403, "account expired"))) && f.db == e.db;
  }

  /** The single row found for a token held once carries its account's expiry. */
  lemma LapsedRow(db: Db, i: nat, now: int)
    requires i < |db.tokens|
    requires forall j :: 0 <= j < |db.tokens| && j != i ==> db.tokens[j].value != db.tokens[i].value
    requires |AccountFromToken(db, db.tokens[i].value, db.tokens[i].web, now).rows| == 1
    requires forall a :: a in db.accounts && a.id == db.tokens[i].account ==> a.timeLeft < now
    ensures AccountFromToken(db, db.tokens[i].value, db.tokens[i].web, now).rows[0].info.timeLeft < now
  {
    var t := db.tokens[i];
    SingleRowIdentifiesToken(db, t.value, t.web, now);
    var u, a :| u in db.tokens && a in db.accounts && u.value == t.value && u.web == t.web && a.id == u.account
                && AccountFromToken(db, t.value, t.web, now).rows[0].info == AuthRowOf(a);
    UniqueAtIndex(db.tokens, i);
    assert u == t;
  }

  /** Once a single session row is found, `token_fetch` ends in `Admit`. */
  lemma FetchSingleRow(db: Db, req: Request, now: int)
    requires !Bypass(req.path) && TokenOf(req).Some?
    requires |AccountFromToken(db, TokenOf(req).value, IsAccountPath(req.path), now).rows| == 1
    ensures var e := AccountFromToken(db, TokenOf(req).value, IsAccountPath(req.path), now);
            TokenFetch(db, req, now) == Admit(e.rows[0].info, req.path, now, e.db)
  {
  }

  /** The account a session row names, as the gate stores it on the request. */
  ghost predicate ContextOf(db: Db, req: Request, now: int, ctx: AuthContext, t: Token, a: Account)
  {
    && t in db.tokens && a in db.accounts && TokenOf(req) == Some(t.value) && t.web == IsAccountPath(req.path)
    && a.id == t.account && ctx.account == a.id && ctx.key == a.key && ctx.maxFlocks == a.flocksMax
    && (a.timeLeft < now ==> IsAccountPath(req.path) && ctx.expires == 0)
    && (a.timeLeft >= now ==> ctx.expires == a.timeLeft - now)
  }

  lemma AdmitContext(db: Db, req: Request, now: int, after: Db, t: Token, a: Account)
    requires t in db.tokens && a in db.accounts && TokenOf(req) == Some(t.value) && t.web == IsAccountPath(req.path) && a.id == t.account
    requires Admit(AuthRowOf(a), req.path, now, after).gate.Proceed?
    ensures ContextOf(db, req, now, Admit(AuthRowOf(a), req.path, now, after).gate.auth.value, t, a)
  {
  }

  /** The context `token_fetch` builds from the single session row. */
  lemma FetchContext(db: Db, req: Request, now: int)
    requires !Bypass(req.path) && TokenOf(req).Some?
    requires |AccountFromToken(db, TokenOf(req).value, IsAccountPath(req.path), now).rows| == 1
    requires TokenFetch(db, req, now).gate.Proceed? && TokenFetch(db, req, now).gate.auth.Some?
    ensures exists t, a :: ContextOf(db, req, now, TokenFetch(db, req, now).gate.auth.value, t, a)
  {
    var value := TokenOf(req).value;
    var web := IsAccountPath(req.path);
    var e := AccountFromToken(db, value, web, now);
    assert TokenFetch(db, req, now) == Admit(e.rows[0].info, req.path, now, e.db);
    SingleRowIdentifiesToken(db, value, web, now);
    var t, a :| t in db.tokens && a in db.accounts && t.value == value && t.web == web && a.id == t.account
                && e.rows[0].info == AuthRowOf(a);
    AdmitContext(db, req, now, e.db, t, a);
  }

  /** A request that proceeds with an account presented a token of that
      account on the path's channel; the context carries that account's key
      and quota; and a lapsed subscription gets through only to an account
      page, with no time left. */
  lemma GateAdmits(db: Db, req: Request, allowed: bool, now: int)
    requires Prerequest(db, req, allowed, now).gate.Proceed?
    requires Prerequest(db, req, allowed, now).gate.auth.Some?
    ensures !Bypass(req.path) && TokenOf(req).Some?
    ensures exists t, a :: ContextOf(db, req, now, Prerequest(db, req, allowed, now).gate.auth.value, t, a)
  {
    FetchContext(db, req, now);
  }

  // ----- the key-slot allocator (device_approve) -----

  /** The outcome of the slot search: a free slot, none left, or a stored slot
      too large for the 256-entry list (an `IndexError`). */
  datatype Pick = Slot(k: nat) | Exhausted | OutOfRange

  /** The first slot from `from` on that is not slot 0 and not held. */
  function FirstFree(keks: seq<nat>, from: nat): Pick
    decreases 256 - from
  {
    if from >= 256 then Exhausted
    else if from != 0 && from !in keks then Slot(from)
    else FirstFree(keks, from + 1)
  }

  /** The slot `device_approve` picks, given the slots held by the flock's devices. */
  function Allocate(keks: seq<nat>): Pick
  {
    if exists i :: 0 <= i < |keks| && keks[i] >= 256 then OutOfRange else FirstFree(keks, 0)
  }

  lemma {:induction false} FirstFreeSpec(keks: seq<nat>, from: nat)
    ensures FirstFree(keks, from).OutOfRange? == false
    ensures FirstFree(keks, from).Slot? ==>
              var k := FirstFree(keks, from).k;
              from <= k < 256 && k != 0 && k !in keks && forall j :: from <= j < k && j != 0 ==> j in keks
    ensures FirstFree(keks, from).Exhausted? ==> forall j :: from <= j < 256 && j != 0 ==> j in keks
    decreases 256 - from
  {
    if from < 256 && !(from != 0 && from !in keks) {
      FirstFreeSpec(keks, from + 1);
    }
  }

  /** The allocator picks the smallest slot in 1..255 that no device of the
      flock holds; it finds none exactly when all of 1..255 are held; and it
      fails exactly when a stored slot is 256 or more. */
  lemma AllocateSpec(keks: seq<nat>)
    ensures Allocate(keks).OutOfRange? <==> exists i :: 0 <= i < |keks| && keks[i] >= 256
    ensures Allocate(keks).Slot? ==>
              var k := Allocate(keks).k;
              1 <= k < 256 && k !in keks && forall j :: 1 <= j < k ==> j in keks
    ensures Allocate(keks).Exhausted? <==>
              (forall i :: 0 <= i < |keks| ==> keks[i] < 256) && forall j :: 1 <= j < 256 ==> j in keks
  {
    FirstFreeSpec(keks, 0);
    if Allocate(keks).Slot? {
      var k := Allocate(keks).k;
      assert k in keks ==> false;
    }
  }

  /** The `keks` list of `device_approve`: 256 flags, slot 0 forced taken,
      every stored slot cleared, then a scan for the first flag still set. */
  method PickSlot(keks: seq<nat>) returns (p: Pick)
    ensures p == Allocate(keks)
  {
    var free := new bool[256](i => true);
    free[0] := false;
    for i := 0 to |keks|
      invariant forall j :: 0 <= j < 256 ==> free[j] == (j != 0 && j !in keks[..i])
      invariant forall j :: 0 <= j < i ==> keks[j] < 256
    {
      if keks[i] >= 256 {
        return OutOfRange;
      }
      free[keks[i]] := false;
      assert keks[..i + 1] == keks[..i] + [keks[i]];
    }
    assert keks[..|keks|] == keks;
    for idx := 0 to 256
      invariant FirstFree(keks, idx) == FirstFree(keks, 0)
    {
      if free[idx] {
        return Slot(idx);
      }
    }
    return Exhausted;
  }

  /** The slots held by the rows `SQL_DEVICE_LIST_ALL_FOR_NETWORK` returns. */
  function KeksOf(rows: seq<SlotRow>): (keks: seq<nat>)
    ensures |keks| == |rows| && forall i :: 0 <= i < |rows| ==> keks[i] == rows[i].kek
  {
    Map(rows, (r: SlotRow) => r.kek)
  }

  /** The reply to a successful approval: the slot as two lowercase hex digits. */
  function ApprovedMessage(device: string, flock: string, k: nat): (m: string)
    requires k < 256
    ensures |m| >= 2 && IsLowerHex(m[|m| - 2..]) && HexValue(m[|m| - 2..]) == k
  {
    Hex2Value(k);
    var m := device + " approved, please supply it with " + flock + "/kek-data/kek-0x" + Hex2(k);
    assert m[|m| - 2..] == Hex2(k);
    m
  }

  /** Every device row names, through its flock id, a flock whose token is the
      token the row stores. */
  ghost predicate Linked(db: Db)
  {
    forall d :: d in db.devices ==> exists n :: n in db.networks && n.id == d.network && n.token == d.networkToken
  }

  /** Approved devices of flock `token` hold distinct slots. */
  ghost predicate SlotsDistinct(db: Db, token: string)
  {
    forall i, j :: 0 <= i < |db.devices| && 0 <= j < |db.devices| && i != j
                   && db.devices[i].networkToken == token && db.devices[j].networkToken == token
                   && db.devices[i].approved && db.devices[j].approved
                   ==> db.devices[i].kek != db.devices[j].kek
  }

  /** The slot the allocator picks is held by no device of the flock. */
  lemma AllocatedSlotUnheld(db: Db, token: string, k: nat)
    requires Linked(db)
    requires Allocate(KeksOf(DeviceListAllForNetwork(db, token))) == Slot(k)
    ensures forall d :: d in db.devices && d.networkToken == token ==> d.kek != k
  {
    var rows := DeviceListAllForNetwork(db, token);
    AllocateSpec(KeksOf(rows));
    forall d | d in db.devices && d.networkToken == token ensures d.kek != k {
      assert InFlock(db, token, d);
      var row := SlotRow(d.kek, d.cathedralId);
      assert row in rows;
      var i :| 0 <= i < |rows| && rows[i] == row;
      assert KeksOf(rows)[i] == d.kek;
    }
  }

  /** Approving with a slot no device of the flock holds keeps the flock's
      approved slots distinct, provided at most one pending device of the flock
      carries that device id. */
  lemma ApprovalKeepsSlotsDistinct(db: Db, token: string, cid: string, k: nat)
    requires SlotsDistinct(db, token)
    requires forall d :: d in db.devices && d.networkToken == token ==> d.kek != k
    requires Count(db.devices, PendingDevice(token, cid)) <= 1
    ensures SlotsDistinct(DeviceApprove(db, token, cid, k).db, token)
  {
    var after := DeviceApprove(db, token, cid, k).db.devices;
    forall i, j | 0 <= i < |after| && 0 <= j < |after| && i != j
                  && after[i].networkToken == token && after[j].networkToken == token
                  && after[i].approved && after[j].approved
      ensures after[i].kek != after[j].kek
    {
      var pi := PendingDevice(token, cid)(db.devices[i]);
      var pj := PendingDevice(token, cid)(db.devices[j]);
      if pi && pj {
        TwoPending(db.devices, PendingDevice(token, cid), i, j);
      }
      assert db.devices[i] in db.devices && db.devices[j] in db.devices;
    }
  }

  /** Nothing keeps device ids unique within a flock: two pending devices of
      the flock with the same id are both approved with the one slot, and the
      flock's approved slots are no longer distinct. */
  lemma CollidingIdsShareSlot(db: Db, token: string, cid: string, k: nat, i: nat, j: nat)
    requires i < |db.devices| && j < |db.devices| && i != j
    requires PendingDevice(token, cid)(db.devices[i]) && PendingDevice(token, cid)(db.devices[j])
    ensures var after := DeviceApprove(db, token, cid, k).db.devices;
            after[i].approved && after[j].approved && after[i].kek == k && after[j].kek == k
    ensures !SlotsDistinct(DeviceApprove(db, token, cid, k).db, token)
  {
    var after := DeviceApprove(db, token, cid, k).db;
    assert after.devices[i].networkToken == token && after.devices[j].networkToken == token;
  }

  /** What approving device `cid` of flock `token` needs to keep slots
      distinct: `Linked`, distinct slots so far, and at most one pending device
      of the flock carrying that device id. */
  ghost predicate ApprovalSafe(db: Db, token: string, cid: string)
  {
    Linked(db) && SlotsDistinct(db, token) && Count(db.devices, PendingDevice(token, cid)) <= 1
  }

  /** The allocator and the approval together: approving with the slot the
      allocator picks keeps the flock's approved slots distinct. */

  lemma AllocateThenApproveKeepsSlotsDistinct(db: Db, token: string, cid: string, k: nat)
    requires ApprovalSafe(db, token, cid)
    requires Allocate(KeksOf(DeviceListAllForNetwork(db, token))) == Slot(k)
    ensures SlotsDistinct(DeviceApprove(db, token, cid, k).db, token)
  {
    AllocatedSlotUnheld(db, token, k);
    ApprovalKeepsSlotsDistinct(db, token, cid, k);
  }

  /** Two distinct rows satisfying `p` make at least two of them. */
  lemma {:induction false} TwoPending<T(!new)>(s: seq<T>, p: T -> bool, i: nat, j: nat)
    requires i < |s| && j < |s| && i != j && p(s[i]) && p(s[j])
    ensures |Filter(s, p)| >= 2
  {
    if i > 0 && j > 0 {
      TwoPending(s[1..], p, i - 1, j - 1);
    } else {
      var other := if i == 0 then j else i;
      assert s[other] == s[1..][other - 1];
      assert s[other] in s[1..];
      assert Filter(s[1..], p) != [];
    }
  }

  // ----- flocks -----

  /** A flock id: 14 random hex digits followed by `"00"`. */
  function FlockId(rand: string): string
  {
    rand + "00"
  }

  /** The id is 16 lowercase hex digits whose number has a zero low byte. */
  lemma FlockIdShape(rand: string)
    requires |rand| == 14 && IsLowerHex(rand)
    ensures |FlockId(rand)| == 16 && IsLowerHex(FlockId(rand)) && FlockId(rand)[14..] == "00"
    ensures HexValue(FlockId(rand)) % 256 == 0
  {
    var id := FlockId(rand);
    assert id[..15] == rand + "0";
    assert id[..15][..14] == rand;
    assert HexValue(id) == HexValue(rand) * 256;
  }

  /** The JSON entry `flocks_for_account` builds for one flock. */
  function FlockEntry(token: string): Json
  {
    JObj([("id", JStr(token))])
  }

  /** The quota holds across `flock_create`: when the owner has at most
      `max` flocks before, it has at most `max` after. */
  lemma FlockQuotaKept(db: Db, owner: nat, max: int, net: string)
    requires HasAccount(db, owner) && UniqueAccountIds(db)
    requires Count(db.networks, OwnedBy(owner)) <= max
    ensures var after := if |NetworkList(db, owner)| >= max then db else NetworkCreate(db, net, owner);
            Count(after.networks, OwnedBy(owner)) <= max
  {
    NetworkListCount(db, owner);
    var n := Network(db.nextNetwork, net, owner, db.defaults.networkAmbryUpdate);
    FilterConcat(db.networks, [n], OwnedBy(owner));
  }

  // ----- device enrollment -----

  /** The reply of `device_create` for a well-sized key, whether or not the flock exists. */
  function EnrollReply(cid: string, secret: string, flock: string): Json
  {
    JObj([("cathedral_id", JStr(cid)), ("cathedral_secret", JStr(secret)), ("flock", JStr(flock))])
  }

  /** One row of the `device_list` reply; the database hands every column back as text. */
  function DeviceJson(r: DeviceListRow): Json
  {
    JObj([("device_kek", JStr(Decimal(r.kek))), ("device_cathedral_id", JStr(r.cid)),
          ("device_approved", JStr(if r.approved then "t" else "f")), ("device_created", JStr(Decimal(r.created)))])
  }

  // ----- account pages -----

  /** The `account` form field passes the route's validator `^[0-9a-f]{64}$`. */
  predicate ValidAccountArg(s: string)
  {
    |s| == 64 && IsLowerHex(s)
  }

  // ----- ambries -----

  /** The two ambry sizes accepted. */
  const AmbryLarge: nat := 7542970
  const AmbrySmall: nat := 3756730

  // ----- cathedral list -----

  /** One line of `cathedral_list`, without its newline. */
  function CathedralLine(c: Cathedral): string
  {
    if c.descr != "" then c.descr + " - " + c.ip + ":" + Decimal(c.port) else c.ip + ":" + Decimal(c.port)
  }

  function CathedralLines(cs: seq<Cathedral>): (ls: seq<string>)
    ensures |ls| == |cs| && forall i :: 0 <= i < |cs| ==> ls[i] == CathedralLine(cs[i])
  {
    Map(cs, CathedralLine)
  }

  lemma CathedralLinesStep(cs: seq<Cathedral>, i: nat)
    requires i < |cs|
    ensures JoinLines(CathedralLines(cs[..i + 1])) == JoinLines(CathedralLines(cs[..i])) + CathedralLine(cs[i]) + "\n"
  {
    assert cs[..i + 1] == cs[..i] + [cs[i]];
    assert CathedralLines(cs[..i + 1]) == CathedralLines(cs[..i]) + [CathedralLine(cs[i])];
    JoinLinesAppend(CathedralLines(cs[..i]), CathedralLine(cs[i]));
  }

  lemma CathedralLineSingle(c: Cathedral)
    requires '\n' !in c.ip && '\n' !in c.descr
    ensures '\n' !in CathedralLine(c)
  {
    var d := Decimal(c.port);
    assert forall k :: 0 <= k < |d| ==> d[k] != '\n';
  }

  /** A client reading the list line by line gets one line per cathedral, in
      address order, when no address or description holds a newline. */
  lemma CathedralListReadBack(db: Db)
    requires forall c :: c in db.cathedrals ==> '\n' !in c.ip && '\n' !in c.descr
    ensures SplitLines(JoinLines(CathedralLines(GetCathedrals(db)))) == CathedralLines(GetCathedrals(db))
    ensures |SplitLines(JoinLines(CathedralLines(GetCathedrals(db))))| == |db.cathedrals|
  {
    var cs := GetCathedrals(db);
    var ls := CathedralLines(cs);
    assert |cs| == |multiset(cs)| == |multiset(db.cathedrals)| == |db.cathedrals|;
    forall i | 0 <= i < |ls| ensures '\n' !in ls[i] {
      assert cs[i] in multiset(cs);
      assert cs[i] in db.cathedrals;
      CathedralLineSingle(cs[i]);
    }
    SplitJoinLines(ls);
  }

  /** After `register`, the new token authenticates the new account on the
      API channel and is refused on the cookie channel. */
  lemma RegisteredTokenAuthenticates(db: Db, key: string, token: string, now: int)
    requires forall t :: t in db.tokens ==> t.value != token
    requires forall a :: a in db.accounts ==> a.id != db.nextAccount
    ensures var created := AccountCreate(db, key);
            var after := TokenCreate(created.db, token, created.rows[0], false);
            var e := AccountFromToken(after, token, false, now);
            |e.rows| == 1 && e.rows[0].info.accountId == db.nextAccount
            && AccountFromToken(after, token, true, now) == Effect(after, [])
  {
    var created := AccountCreate(db, key);
    var after := TokenCreate(created.db, token, created.rows[0], false);
    var i := |db.tokens|;
    assert after.tokens[i].value == token;
    assert after.accounts[|db.accounts|] in after.accounts;
    assert HasAccount(after, after.tokens[i].account);
    UniqueTokenSingleRow(after, i, now);
    assert forall u :: u in after.tokens && u.value == token ==> u.account == db.nextAccount;
    SingleRowAccount(after, token, false, now, db.nextAccount);
  }

  /** The loop of `cathedral_list`: each cathedral's line and a newline, appended in order. */
  method CathedralText(cathedrals: seq<Cathedral>) returns (text: string)
    ensures text == JoinLines(CathedralLines(cathedrals))
  {
    text := "";
    for i := 0 to |cathedrals|
      invariant text == JoinLines(CathedralLines(cathedrals[..i]))
    {
      var c := cathedrals[i];
      CathedralLinesStep(cathedrals, i);
      if c.descr != "" {
        text := text + (c.descr + " - " + c.ip + ":" + Decimal(c.port) + "\n");
      } else {
        text := text + (c.ip + ":" + Decimal(c.port) + "\n");
      }
    }
    assert cathedrals[..|cathedrals|] == cathedrals;
  }

  /** The loop of `flocks_for_account`: one `{"id": token}` entry per row. */
  method FlockEntries(res: seq<string>) returns (flocks: seq<Json>)
    ensures |flocks| == |res| && forall i :: 0 <= i < |res| ==> flocks[i] == FlockEntry(res[i])
  {
    flocks := [];
    if |res| == 0 {
      return;
    }
    for i := 0 to |res|
      invariant |flocks| == i
      invariant forall j :: 0 <= j < i ==> flocks[j] == FlockEntry(res[j])
    {
      flocks := flocks + [JObj([("id", JStr(res[i]))])];
    }
  }

  // ----- the service -----

  /** The API service: the database it queries and the ambry files it publishes. */
  class Api {
    var db: Db
    var files: map<string, seq<byte>>
    /** `API_AMBRY_PATH`, `API_CATHEDRAL`, `API_CATHEDRAL_NAT`, `API_DEPLOYMENT`. */
    const ambryPath: string
    const cathedral: string
    const cathedralNat: string
    const deployment: string

    constructor(db0: Db, files0: map<string, seq<byte>>, ambryPath: string, cathedral: string, cathedralNat: string, deployment: string)
      ensures db == db0 && files == files0
      ensures this.ambryPath == ambryPath && this.cathedral == cathedral
      ensures this.cathedralNat == cathedralNat && this.deployment == deployment
    {
      db := db0;
      files := files0;
      this.ambryPath := ambryPath;
      this.cathedral := cathedral;
      this.cathedralNat := cathedralNat;
      this.deployment := deployment;
    }

    /** Runs the pre-request hooks, keeping the tables the token lookup leaves. */
    method Gate(req: Request, allowed: bool, now: int) returns (g: Gate)
      modifies this
      ensures Gated(g, db) == Prerequest(old(db), req, allowed, now)
      ensures files == old(files)
    {
      var r := Prerequest(db, req, allowed, now);
      db := r.db;
      g := r.gate;
    }

    /** `cathedral_list`: one line per cathedral, in address order. */
    method CathedralList() returns (resp: Response)
      ensures resp == Plain(200, JoinLines(CathedralLines(GetCathedrals(db))))
    {
      var text := CathedralText(GetCathedrals(db));
      resp := Plain(200, text);
    }

    /** `flocks_for_account`: one `{"id": token}` entry per row of the flock list. */
    method FlocksForAccount(account: nat) returns (flocks: seq<Json>)
      ensures |flocks| == |NetworkList(db, account)|
      ensures forall i :: 0 <= i < |flocks| ==> flocks[i] == FlockEntry(NetworkList(db, account)[i])
    {
      flocks := FlockEntries(NetworkList(db, account));
    }

    /** `register`: a new account with the drawn key and a new API token for it. */
    method Register(key: string, token: string) returns (resp: Response)
      requires |key| == 64 && IsLowerHex(key) && |token| == 32 && IsLowerHex(token)
      modifies this
      ensures var created := AccountCreate(old(db), key);
              db == TokenCreate(created.db, token, created.rows[0], false)
      ensures resp == Response(200, Doc(JObj([("token", JStr(token)), ("account", JStr(key)), ("share_id", JInt(old(db).nextAccount)),
                                              ("cathedral", JStr(cathedral)), ("natport", JStr(cathedralNat))])), [])
      ensures files == old(files)
    {
      var created := AccountCreate(db, key);
      db := created.db;
      var accountId := created.rows[0];
      db := TokenCreate(db, token, accountId, false);
      resp := Response(200, Doc(JObj([("token", JStr(token)), ("account", JStr(key)), ("share_id", JInt(accountId)),
                                      ("cathedral", JStr(cathedral)), ("natport", JStr(cathedralNat))])), []);
    }

    /** `init`: a new API token for the account whose key is the body; with no
        single such account, only the relay address. */
    method Init(body: string, token: string) returns (resp: Response)
      requires |token| == 32 && IsLowerHex(token)
      modifies this
      ensures var res := AccountFromKey(old(db), body);
              && (|res| != 1 ==> db == old(db) && resp == Response(200, Doc(JObj([("cathedral", JStr(cathedral)), ("natport", JStr(cathedralNat))])), []))
              && (|res| == 1 ==> db == TokenCreate(old(db), token, res[0].id, false)
                                 && resp == Response(200, Doc(JObj([("token", JStr(token)), ("share_id", JInt(res[0].id)),
                                                                    ("cathedral", JStr(cathedral)), ("natport", JStr(cathedralNat))])), []))
      ensures files == old(files)
    {
      var res := AccountFromKey(db, body);
      if |res| != 1 {
        resp := Response(200, Doc(JObj([("cathedral", JStr(cathedral)), ("natport", JStr(cathedralNat))])), []);
        return;
      }
      var account := res[0].id;
      db := TokenCreate(db, token, account, false);
      resp := Response(200, Doc(JObj([("token", JStr(token)), ("share_id", JInt(account)),
                                      ("cathedral", JStr(cathedral)), ("natport", JStr(cathedralNat))])), []);
    }

    /** The session cookie `account_login` sets. */
    function LoginCookie(token: string): string
    {
      if deployment != "dev" then "token=" + token + ";HttpOnly;Secure;Path=/account/"
      else "token=" + token + ";HttpOnly;Path=/account/"
    }

    /** `account_login` (POST): a field that fails the validator is absent; a
        key of no single account sends the browser back to the login page; a
        known key gets a new cookie token and goes to the account page. */
    method AccountLogin(arg: Option<string>, token: string) returns (resp: Response)
      requires |token| == 32 && IsLowerHex(token)
      modifies this
      ensures arg.None? || !ValidAccountArg(arg.value) ==> resp == Plain(400, "bad request") && db == old(db)
      ensures arg.Some? && ValidAccountArg(arg.value) ==>
                var res := AccountFromKey(old(db), arg.value);
                && (|res| != 1 ==> resp == Redirect(302, LoginPath) && db == old(db))
                && (|res| == 1 ==> db == TokenCreate(old(db), token, res[0].id, true)
                                   && resp == Response(302, Raw(""), [("set-cookie", LoginCookie(token)), ("location", "/account/")]))
      ensures files == old(files)
    {
      var account := if arg.Some? && ValidAccountArg(arg.value) then arg else None;
      if account.None? {
        resp := Plain(400, "bad request");
        return;
      }
      var res := AccountFromKey(db, account.value);
      if |res| != 1 {
        resp := Redirect(302, LoginPath);
        return;
      }
      db := TokenCreate(db, token, res[0].id, true);
      resp := Response(302, Raw(""), [("set-cookie", LoginCookie(token)), ("location", "/account/")]);
    }

    /** `flock_create`: refuses once the owner's flock list reaches the quota,
        otherwise inserts a flock with the drawn id and returns the id. */
    method FlockCreate(ctx: AuthContext, rand: string) returns (resp: Response)
      requires |rand| == 14 && IsLowerHex(rand)
      modifies this
      ensures |NetworkList(old(db), ctx.account)| >= ctx.maxFlocks ==>
                db == old(db) && resp == Plain(200, "reached max flocks per account")
      ensures |NetworkList(old(db), ctx.account)| < ctx.maxFlocks ==>
                db == NetworkCreate(old(db), FlockId(rand), ctx.account) && resp == Plain(200, FlockId(rand))
      ensures files == old(files)
    {
      var flocks := FlocksForAccount(ctx.account);
      if |flocks| >= ctx.maxFlocks {
        resp := Plain(200, "reached max flocks per account");
        return;
      }
      var net := FlockId(rand);
      db := NetworkCreate(db, net, ctx.account);
      resp := Plain(200, net);
    }

    /** `flock_list`. */
    method FlockList(ctx: AuthContext) returns (resp: Response)
      ensures resp == Response(200, Doc(JObj([("flocks", JArr(Map(NetworkList(db, ctx.account), FlockEntry)))])), [])
    {
      var flocks := FlocksForAccount(ctx.account);
      assert flocks == Map(NetworkList(db, ctx.account), FlockEntry);
      resp := Response(200, Doc(JObj([("flocks", JArr(flocks))])), []);
    }

    /** `flock_delete`: deletes the caller's flock with that token. */
    method FlockDelete(ctx: AuthContext, network: string) returns (resp: Response)
      modifies this
      ensures var e := NetworkDelete(old(db), network, ctx.account);
              db == e.db && resp == Plain(200, if |e.rows| != 1 then "no such flock" else "deleted")
      ensures files == old(files)
    {
      var e := NetworkDelete(db, network, ctx.account);
      db := e.db;
      if |e.rows| != 1 {
        resp := Plain(200, "no such flock");
      } else {
        resp := Plain(200, "deleted");
      }
    }

    /** `device_create` (no token needed). A key that is not 32 bytes is
        refused before any lookup. Otherwise the reply has the same shape
        whether or not the flock exists: an unknown flock gets the drawn id and
        secret and the flock token echoed, and nothing is stored; a known one
        gets an unapproved device row with slot 0 and the key's hex. */
    method DeviceCreate(flock: string, body: seq<byte>, cid: string, secret: string, now: int) returns (resp: Response)
      requires |cid| == 8 && IsLowerHex(cid) && |secret| == 64 && IsLowerHex(secret)
      modifies this
      ensures |body| != 32 ==> resp == Plain(400, "invalid cosk") && db == old(db)
      ensures |body| == 32 ==> resp == Response(200, Doc(EnrollReply(cid, secret, flock)), [])
      ensures |body| == 32 && |NetworksByToken(old(db), flock)| != 1 ==> db == old(db)
      ensures |body| == 32 && |NetworksByToken(old(db), flock)| == 1 ==>
                var n := NetworksByToken(old(db), flock)[0];
                db == Queries.DeviceCreate(old(db), 0, cid, n.id, secret, n.owner, flock, BytesHex(body), now).db
      ensures files == old(files)
    {
      if |body| != 32 {
        resp := Plain(400, "invalid cosk");
        return;
      }
      var net := NetworksByToken(db, flock);
      if |net| != 1 {
        resp := Response(200, Doc(JObj([("cathedral_id", JStr(cid)), ("cathedral_secret", JStr(secret)), ("flock", JStr(flock))])), []);
        return;
      }
      assert net[0] in net;
      var e := Queries.DeviceCreate(db, 0, cid, net[0].id, secret, net[0].owner, flock, BytesHex(body), now);
      db := e.db;
      resp := Response(200, Doc(JObj([("cathedral_id", JStr(cid)), ("cathedral_secret", JStr(secret)), ("flock", JStr(net[0].token))])), []);
    }

    /** `device_list`: only the owner of the flock sees its devices. */
    method DeviceList(ctx: AuthContext, flock: string) returns (resp: Response)
      ensures |NetworkGet(db, flock, ctx.account)| != 1 ==> resp == Plain(403, "")
      ensures |NetworkGet(db, flock, ctx.account)| == 1 && Queries.DeviceList(db, flock, ctx.account) == [] ==>
                resp == Response(200, Doc(JObj([("error", JStr("no devices"))])), [])
      ensures |NetworkGet(db, flock, ctx.account)| == 1 && Queries.DeviceList(db, flock, ctx.account) != [] ==>
                resp == Response(200, Doc(JObj([("devices", JArr(Map(Queries.DeviceList(db, flock, ctx.account), DeviceJson)))])), [])
    {
      var net := NetworkGet(db, flock, ctx.account);
      if |net| != 1 {
        resp := Plain(403, "");
        return;
      }
      var res := Queries.DeviceList(db, flock, ctx.account);
      if |res| == 0 {
        resp := Response(200, Doc(JObj([("error", JStr("no devices"))])), []);
        return;
      }
      resp := Response(200, Doc(JObj([("devices", JArr(Map(res, DeviceJson)))])), []);
    }

    /** `device_delete`: the owner of the flock deletes one of its own devices. */
    method DeviceDelete(ctx: AuthContext, flock: string, device: string) returns (resp: Response)
      modifies this
      ensures |NetworkGet(old(db), flock, ctx.account)| != 1 ==> resp == Plain(403, "") && db == old(db)
      ensures |NetworkGet(old(db), flock, ctx.account)| == 1 ==>
                var e := Queries.DeviceDelete(old(db), flock, device, ctx.account);
                db == e.db && resp == Plain(200, if |e.rows| != 1 then device + " does not exist" else device + " deleted")
      ensures files == old(files)
    {
      var net := NetworkGet(db, flock, ctx.account);
      if |net| != 1 {
        resp := Plain(403, "");
        return;
      }
      var e := Queries.DeviceDelete(db, flock, device, ctx.account);
      db := e.db;
      if |e.rows| != 1 {
        resp := Plain(200, device + " does not exist");
      } else {
        resp := Plain(200, device + " deleted");
      }
    }

    /** `device_approve`: the owner of the flock approves a pending device with
        the smallest slot no device of the flock holds. */
    method DeviceApprove(ctx: AuthContext, flock: string, device: string) returns (resp: Response)
      modifies this
      ensures |NetworkGet(old(db), flock, ctx.account)| != 1 ==> resp == Plain(403, "") && db == old(db)
      ensures |NetworkGet(old(db), flock, ctx.account)| == 1 ==>
                var pick := Allocate(KeksOf(DeviceListAllForNetwork(old(db), flock)));
                && (pick == Exhausted ==> resp == Plain(400, "no available KEK ids left") && db == old(db))
                && (pick == OutOfRange ==> resp == Plain(500, "") && db == old(db))
                && (pick.Slot? ==> (pick.k < 256 &&
                      var e := Queries.DeviceApprove(old(db), flock, device, pick.k);
                      db == e.db
                      && resp == Plain(200, if |e.rows| != 1 then device + " not found or already approved"
                                            else ApprovedMessage(device, flock, pick.k))))
      ensures files == old(files)
    {
      var net := NetworkGet(db, flock, ctx.account);
      if |net| != 1 {
        resp := Plain(403, "");
        return;
      }
      var devices := DeviceListAllForNetwork(db, flock);
      var pick := PickSlot(KeksOf(devices));
      match pick
      case OutOfRange =>
        resp := Plain(500, "");
      case Exhausted =>
        resp := Plain(400, "no available KEK ids left");
      case Slot(k) =>
        AllocateSpec(KeksOf(devices));
        var e := Queries.DeviceApprove(db, flock, device, k);
        db := e.db;
        if |e.rows| != 1 {
          resp := Plain(200, device + " not found or already approved");
        } else {
          resp := Plain(200, ApprovedMessage(device, flock, k));
        }
    }

    function AmbryTmp(flock: string): string
    {
      ambryPath + "/ambry-" + flock + ".tmp"
    }

    function AmbryFile(flock: string): string
    {
      ambryPath + "/ambry-" + flock
    }

    /** `ambry_upload`: the owner of the flock publishes an ambry of one of the
        two accepted sizes by writing a temporary file and renaming it over
        the flock's ambry, then stamps the flock. */
    method AmbryUpload(ctx: AuthContext, flock: string, body: seq<byte>, now: int) returns (resp: Response)
      modifies this
      ensures |NetworkGet(old(db), flock, ctx.account)| != 1 ==>
                resp == Plain(403, "bad request") && db == old(db) && files == old(files)
      ensures |NetworkGet(old(db), flock, ctx.account)| == 1 && |body| != AmbryLarge && |body| != AmbrySmall ==>
                resp == Plain(403, "bad request, invalid length") && db == old(db) && files == old(files)
      ensures |NetworkGet(old(db), flock, ctx.account)| == 1 && (|body| == AmbryLarge || |body| == AmbrySmall) ==>
                && resp == Plain(200, "ambry uploaded")
                && files == (old(files) - {AmbryTmp(flock)})[AmbryFile(flock) := body]
                && db == NetworkAmbryUpdate(old(db), flock, ctx.account, now)
    {
      var net := NetworkGet(db, flock, ctx.account);
      if |net| != 1 {
        resp := Plain(403, "bad request");
        return;
      }
      var src := AmbryTmp(flock);
      if |body| != AmbryLarge && |body| != AmbrySmall {
        resp := Plain(403, "bad request, invalid length");
        return;
      }
      RenameOverwrites(files, src, AmbryFile(flock), body);
      files := files[src := body];
      var dst := AmbryFile(flock);
      files := (files - {src})[dst := files[src]];
      db := NetworkAmbryUpdate(db, flock, ctx.account, now);
      resp := Plain(200, "ambry uploaded");
    }

    /** `account_delete`: deletes the caller's account row and returns to the account page. */
    method AccountDelete(ctx: AuthContext) returns (resp: Response)
      modifies this
      ensures db == Queries.AccountDelete(old(db), ctx.account) && resp == Redirect(302, "/account/")
      ensures files == old(files)
    {
      db := Queries.AccountDelete(db, ctx.account);
      resp := Redirect(302, "/account/");
    }

    /** `account_add_time`: sets the caller's subscription to 31 days from now. */
    method AccountAddTime(ctx: AuthContext, now: int) returns (resp: Response)
      modifies this
      ensures db == AccountTimeAdd(old(db), ctx.account, now) && resp == Redirect(302, "/account/")
      ensures files == old(files)
    {
      db := AccountTimeAdd(db, ctx.account, now);
      resp := Redirect(302, "/account/");
    }
  }
}
