/** The statements of `src/api/queries.py`, one function each, from a database
    state to the rows a `SELECT` returns or to the new state (and the
    `RETURNING` rows) an `INSERT`, `UPDATE` or `DELETE` leaves. The clock is
    the parameter `now` (epoch seconds, standing for `EXTRACT(epoch FROM now())`). */
module Queries {
  import opened Util
  import opened Text
  import opened Tables

  /** Sliding lifetime of a session token: 30 days. */
  const TokenLifetime: int := 2592000
  /** Subscription period granted by `/account/time`: 31 days. */
  const SubscriptionPeriod: int := 2678400

  // ----- row selections shared by several statements -----

  function TokenNamed(value: string): Token -> bool
  {
    (t: Token) => t.value == value
  }

  function NetworkScope(token: string, owner: nat): Network -> bool
  {
    (n: Network) => n.token == token && n.owner == owner
  }

  function DeviceScope(networkToken: string, cid: string, account: nat): Device -> bool
  {
    (d: Device) => d.networkToken == networkToken && d.cathedralId == cid && d.account == account
  }

  function PendingDevice(networkToken: string, cid: string): Device -> bool
  {
    (d: Device) => d.networkToken == networkToken && d.cathedralId == cid && !d.approved
  }

  function DeviceOfAccount(cid: string, account: nat): Device -> bool
  {
    (d: Device) => d.cathedralId == cid && d.account == account
  }

  function XflockScope(srcToken: string, dstToken: string, owner: nat): Xflock -> bool
  {
    (x: Xflock) => x.srcToken == srcToken && x.dstToken == dstToken && x.owner == owner
  }

  // ----- SQL_GET_CATHEDRALS -----

  predicate IpLe(a: Cathedral, b: Cathedral)
  {
    StrLe(a.ip, b.ip)
  }

  lemma IpLeIsTotalPreorder()
    ensures IsTotalPreorder(IpLe)
  {
    forall a: Cathedral, b: Cathedral ensures IpLe(a, b) || IpLe(b, a) {
      StrLeTotal(a.ip, b.ip);
    }
    forall a: Cathedral, b: Cathedral, c: Cathedral | IpLe(a, b) && IpLe(b, c) ensures IpLe(a, c) {
      StrLeTransitive(a.ip, b.ip, c.ip);
    }
  }

  /** Every cathedral, ordered by address. */
  function GetCathedrals(db: Db): (r: seq<Cathedral>)
    ensures multiset(r) == multiset(db.cathedrals)
    ensures forall i, j :: 0 <= i < j < |r| ==> StrLe(r[i].ip, r[j].ip)
  {
    IpLeIsTotalPreorder();
    SortSorted(db.cathedrals, IpLe);
    SortBy(db.cathedrals, IpLe)
  }

  // ----- SQL_ACCOUNT_FROM_KEY -----

  datatype KeyRow = KeyRow(id: nat, timeLeft: int)

  /** The accounts whose key is `key`. */
  function AccountFromKey(db: Db, key: string): (r: seq<KeyRow>)
    ensures forall row :: row in r <==> exists a :: a in db.accounts && a.key == key && row == KeyRow(a.id, a.timeLeft)
    ensures |r| == Count(db.accounts, (a: Account) => a.key == key)
  {
    var hits := Filter(db.accounts, (a: Account) => a.key == key);
    var r := Map(hits, (a: Account) => KeyRow(a.id, a.timeLeft));
    forall row ensures row in r <==> exists a :: a in db.accounts && a.key == key && row == KeyRow(a.id, a.timeLeft) {
      MapMember(hits, (a: Account) => KeyRow(a.id, a.timeLeft), row);
    }
    r
  }

  // ----- SQL_ACCOUNT_FROM_TOKEN -----

  datatype AuthRow = AuthRow(accountId: nat, timeLeft: int, key: string, flocksMax: int)

  /** A returned row: the updated token joined with an `account_info` row. */
  datatype TokenAuthRow = TokenAuthRow(token: Token, info: AuthRow)

  function AuthRowOf(a: Account): AuthRow
  {
    AuthRow(a.id, a.timeLeft, a.key, a.flocksMax)
  }

  function AccountNamed(id: nat): Account -> bool
  {
    (a: Account) => a.id == id
  }

  function SessionToken(value: string, web: bool): Token -> bool
  {
    (t: Token) => t.value == value && t.web == web
  }

  /** An account row with that id exists. */
  ghost predicate HasAccount(db: Db, id: nat)
  {
    exists a :: a in db.accounts && a.id == id
  }

  /** Some token with that value was issued for that channel and belongs to an
      existing account. */
  ghost predicate HasSession(db: Db, value: string, web: bool)
  {
    exists t :: t in db.tokens && t.value == value && t.web == web && HasAccount(db, t.account)
  }

  /** The `account_info` rows one token joins with. */
  function AccountsOf(db: Db, t: Token): (r: seq<AuthRow>)
    ensures r != [] <==> HasAccount(db, t.account)
  {
    var accs := Filter(db.accounts, AccountNamed(t.account));
    assert accs != [] ==> accs[0] in accs;
    Map(accs, AuthRowOf)
  }

  function JoinAccounts(db: Db): Token -> seq<AuthRow>
  {
    (t: Token) => AccountsOf(db, t)
  }

  /** The `account_info` common table expression: tokens matching both value and
      channel, joined with their account. */
  function AccountInfo(db: Db, value: string, web: bool): (r: seq<AuthRow>)
    ensures r != [] <==> HasSession(db, value, web)
  {
    var hits := Filter(db.tokens, SessionToken(value, web));
    var r := FlatMap(hits, JoinAccounts(db));
    assert HasSession(db, value, web) ==> r != [] by {
      if HasSession(db, value, web) {
        var t :| t in db.tokens && t.value == value && t.web == web && HasAccount(db, t.account);
        assert t in hits && JoinAccounts(db)(t) != [];
      }
    }
    r
  }

  function Refreshed(value: string, now: int): Token -> Token
  {
    (t: Token) => if t.value == value then t.(expires := now + TokenLifetime) else t
  }

  function RowFor(info: AuthRow, now: int): Token -> TokenAuthRow
  {
    (t: Token) => TokenAuthRow(t.(expires := now + TokenLifetime), info)
  }

  /** Session lookup. If some token matches both `value` and the channel and has
      an account, EVERY token with that value gets expiry `now + 30 days` and is
      returned joined with the (first) `account_info` row; otherwise nothing
      changes and nothing is returned. The token's own expiry is not consulted. */
  function AccountFromToken(db: Db, value: string, web: bool, now: int): (e: Effect<TokenAuthRow>)
    ensures e.rows != [] <==> HasSession(db, value, web)
    ensures e.rows == [] ==> e.db == db
    ensures e.rows != [] ==> e.db == db.(tokens := Map(db.tokens, Refreshed(value, now)))
    ensures e.rows != [] ==> |e.rows| == Count(db.tokens, TokenNamed(value))
  {
    var info := AccountInfo(db, value, web);
    if info == [] then Effect(db, [])
    else
      var hits := Filter(db.tokens, TokenNamed(value));
      assert hits != [] by {
        var t :| t in db.tokens && t.value == value && t.web == web && HasAccount(db, t.account);
        assert t in hits;
      }
      Effect(db.(tokens := Map(db.tokens, Refreshed(value, now))), Map(hits, RowFor(info[0], now)))
  }

  /** Every returned row carries a token with that value, its expiry pushed to
      `now + 30 days`, and an account matched through a token of that channel. */
  lemma AccountFromTokenRows(db: Db, value: string, web: bool, now: int)
    ensures var e := AccountFromToken(db, value, web, now);
            forall row :: row in e.rows ==> row.token.value == value && row.token.expires == now + TokenLifetime
                                            && row.info == AccountInfo(db, value, web)[0]
  {
    var e := AccountFromToken(db, value, web, now);
    var info := AccountInfo(db, value, web);
    if info != [] {
      var hits := Filter(db.tokens, TokenNamed(value));
      forall row | row in e.rows ensures row.token.value == value && row.token.expires == now + TokenLifetime && row.info == info[0] {
        MapMember(hits, RowFor(info[0], now), row);
      }
    }
  }

  // ----- SQL_ACCOUNT_CREATE, SQL_ACCOUNT_DELETE, SQL_ACCOUNT_TIME_ADD -----

  /** A new account with the next serial id and the schema's defaults; returns its id. */
  function AccountCreate(db: Db, key: string): (e: Effect<nat>)
    ensures |e.rows| == 1 && e.rows[0] == db.nextAccount
    ensures e.db.accounts == db.accounts + [Account(db.nextAccount, key, db.defaults.accountTimeLeft, db.defaults.accountFlocksMax)]
    ensures e.db == db.(accounts := e.db.accounts, nextAccount := db.nextAccount + 1)
  {
    var a := Account(db.nextAccount, key, db.defaults.accountTimeLeft, db.defaults.accountFlocksMax);
    Effect(db.(accounts := db.accounts + [a], nextAccount := db.nextAccount + 1), [a.id])
  }

  /** Removes the account rows with that id; no other table is touched. */
  function AccountDelete(db: Db, id: nat): (r: Db)
    ensures forall a :: a in r.accounts <==> a in db.accounts && a.id != id
    ensures r == db.(accounts := r.accounts)
  {
    db.(accounts := Filter(db.accounts, (a: Account) => a.id != id))
  }

  function Renewed(id: nat, now: int): Account -> Account
  {
    (a: Account) => if a.id == id then a.(timeLeft := now + SubscriptionPeriod) else a
  }

  /** Sets the subscription expiry of the account to `now + 31 days`. */
  function AccountTimeAdd(db: Db, id: nat, now: int): (r: Db)
    ensures |r.accounts| == |db.accounts|
    ensures forall i :: 0 <= i < |db.accounts| && db.accounts[i].id == id ==> r.accounts[i] == db.accounts[i].(timeLeft := now + SubscriptionPeriod)
    ensures forall i :: 0 <= i < |db.accounts| && db.accounts[i].id != id ==> r.accounts[i] == db.accounts[i]
    ensures r == db.(accounts := r.accounts)
  {
    db.(accounts := Map(db.accounts, Renewed(id, now)))
  }

  // ----- SQL_TOKEN_CREATE -----

  /** A new token row; its expiry is the schema's default. */
  function TokenCreate(db: Db, value: string, account: nat, web: bool): (r: Db)
    ensures r.tokens == db.tokens + [Token(value, account, web, db.defaults.tokenExpires)]
    ensures r == db.(tokens := r.tokens)
  {
    db.(tokens := db.tokens + [Token(value, account, web, db.defaults.tokenExpires)])
  }

  // ----- SQL_NETWORK_CREATE, SQL_NETWORK_DELETE -----

  function NetworkCreate(db: Db, token: string, owner: nat): (r: Db)
    ensures r.networks == db.networks + [Network(db.nextNetwork, token, owner, db.defaults.networkAmbryUpdate)]
    ensures r == db.(networks := r.networks, nextNetwork := db.nextNetwork + 1)
  {
    db.(networks := db.networks + [Network(db.nextNetwork, token, owner, db.defaults.networkAmbryUpdate)],
        nextNetwork := db.nextNetwork + 1)
  }

  /** Deletes the flocks with that token AND that owner, returning their ids.
      (`network_owner = $2 IS TRUE` only turns an unknown owner comparison into
      false, which the `WHERE` clause does anyway.) */
  function NetworkDelete(db: Db, token: string, owner: nat): (e: Effect<nat>)
    ensures forall n :: n in e.db.networks <==> n in db.networks && !(n.token == token && n.owner == owner)
    ensures |e.rows| == Count(db.networks, NetworkScope(token, owner))
    ensures e.db == db.(networks := e.db.networks)
  {
    var doomed := Filter(db.networks, NetworkScope(token, owner));
    Effect(db.(networks := Filter(db.networks, (n: Network) => !(n.token == token && n.owner == owner))),
           Map(doomed, (n: Network) => n.id))
  }

  // ----- SQL_NETWORK_GET, SQL_NETWORK_GET_OWNER, SQL_NETWORK_GET_UNAUTHED -----

  /** The ownership gate: flocks with that token owned by `owner`. */
  function NetworkGet(db: Db, token: string, owner: nat): (r: seq<Network>)
    ensures forall n :: n in r <==> n in db.networks && n.token == token && n.owner == owner
  {
    Filter(db.networks, NetworkScope(token, owner))
  }

  /** Flocks with that token, whoever owns them. Both `SQL_NETWORK_GET_OWNER`
      and `SQL_NETWORK_GET_UNAUTHED` are this selection; they differ only in the
      columns they list. */
  function NetworksByToken(db: Db, token: string): (r: seq<Network>)
    ensures forall n :: n in r <==> n in db.networks && n.token == token
  {
    Filter(db.networks, (n: Network) => n.token == token)
  }

  // ----- SQL_NETWORK_LIST -----

  function OwnedBy(owner: nat): Network -> bool
  {
    (n: Network) => n.owner == owner
  }

  /** Account ids are unique, as a serial primary key makes them. */
  ghost predicate UniqueAccountIds(db: Db)
  {
    forall i, j :: 0 <= i < j < |db.accounts| ==> db.accounts[i].id != db.accounts[j].id
  }

  /** The join of one flock with `accounts`: its token once per account row of its owner. */
  function TokenIfOwnerExists(db: Db, n: Network): (r: seq<string>)
    ensures forall tok :: tok in r <==> HasAccount(db, n.owner) && tok == n.token
  {
    var accs := Filter(db.accounts, AccountNamed(n.owner));
    assert accs != [] ==> accs[0] in accs;
    var r := Map(accs, (a: Account) => n.token);
    forall tok ensures tok in r <==> HasAccount(db, n.owner) && tok == n.token {
      MapMember(accs, (a: Account) => n.token, tok);
    }
    r
  }

  function JoinOwner(db: Db): Network -> seq<string>
  {
    (n: Network) => TokenIfOwnerExists(db, n)
  }

  /** Tokens of the flocks of `owner`, provided an account row with that id
      exists (the join with `accounts`). */
  function NetworkList(db: Db, owner: nat): (r: seq<string>)
    ensures forall tok :: tok in r <==> HasAccount(db, owner) && exists n :: n in db.networks && n.owner == owner && n.token == tok
  {
    var mine := Filter(db.networks, OwnedBy(owner));
    var r := FlatMap(mine, JoinOwner(db));
    forall tok ensures tok in r <==> HasAccount(db, owner) && exists n :: n in db.networks && n.owner == owner && n.token == tok {
      if HasAccount(db, owner) && exists n :: n in db.networks && n.owner == owner && n.token == tok {
        var n :| n in db.networks && n.owner == owner && n.token == tok;
        assert n in mine && tok in JoinOwner(db)(n);
      }
    }
    r
  }

  /** A single account row per id makes the list exactly the owner's flocks, one entry each. */
  lemma NetworkListCount(db: Db, owner: nat)
    requires HasAccount(db, owner) && UniqueAccountIds(db)
    ensures |NetworkList(db, owner)| == Count(db.networks, OwnedBy(owner))
  {
    var mine := Filter(db.networks, OwnedBy(owner));
    var a :| a in db.accounts && a.id == owner;
    var i :| 0 <= i < |db.accounts| && db.accounts[i] == a;
    forall n | n in mine ensures |JoinOwner(db)(n)| == 1 {
      CountOne(db.accounts, AccountNamed(n.owner), i);
    }
    FlatMapOnes(mine, JoinOwner(db));
  }

  lemma {:induction false} CountOne<T(!new)>(s: seq<T>, p: T -> bool, i: nat)
    requires i < |s| && p(s[i])
    requires forall j :: 0 <= j < |s| && j != i ==> !p(s[j])
    ensures |Filter(s, p)| == 1
  {
    if i == 0 {
      assert forall x :: x in s[1..] ==> !p(x) by {
        forall x | x in s[1..] ensures !p(x) {
          var k :| 0 <= k < |s[1..]| && s[1..][k] == x;
          assert s[k + 1] == x;
        }
      }
    } else {
      assert !p(s[0]);
      forall j | 0 <= j < |s[1..]| && j != i - 1 ensures !p(s[1..][j]) {
        assert s[1..][j] == s[j + 1];
      }
      CountOne(s[1..], p, i - 1);
    }
  }

  lemma {:induction false} FlatMapOnes<T(!new), U(!new)>(s: seq<T>, f: T -> seq<U>)
    requires forall x :: x in s ==> |f(x)| == 1
    ensures |FlatMap(s, f)| == |s|
  {
    if s != [] {
      assert forall x :: x in s[1..] ==> x in s;
      FlatMapOnes(s[1..], f);
    }
  }

  // ----- SQL_NETWORK_AMBRY_UPDATE -----

  function Stamped(token: string, owner: nat, now: int): Network -> Network
  {
    (n: Network) => if n.token == token && n.owner == owner then n.(ambryUpdate := now) else n
  }

  /** Records `now` as the ambry upload time of the owner's flock with that token. */
  function NetworkAmbryUpdate(db: Db, token: string, owner: nat, now: int): (r: Db)
    ensures |r.networks| == |db.networks|
    ensures forall i :: 0 <= i < |db.networks| ==> r.networks[i] == if db.networks[i].token == token && db.networks[i].owner == owner then db.networks[i].(ambryUpdate := now) else db.networks[i]
    ensures r == db.(networks := r.networks)
  {
    db.(networks := Map(db.networks, Stamped(token, owner, now)))
  }

  // ----- SQL_XFLOCK_GET, SQL_XFLOCK_CREATE, SQL_XFLOCK_LIST,
  //       SQL_XFLOCK_LIST_FOR_FLOCK, SQL_XFLOCK_DELETE -----

  /** Ids of the trust-link rows from flock id `src` to flock id `dst` owned by `owner`. */
  function XflockGet(db: Db, src: nat, dst: nat, owner: nat): (r: seq<nat>)
    ensures forall id :: id in r <==> exists x :: x in db.xflocks && x.src == src && x.dst == dst && x.owner == owner && x.id == id
  {
    var hits := Filter(db.xflocks, (x: Xflock) => x.src == src && x.dst == dst && x.owner == owner);
    var r := Map(hits, (x: Xflock) => x.id);
    forall id ensures id in r <==> exists x :: x in db.xflocks && x.src == src && x.dst == dst && x.owner == owner && x.id == id {
      MapMember(hits, (x: Xflock) => x.id, id);
    }
    r
  }

  function XflockCreate(db: Db, src: nat, srcToken: string, dst: nat, dstToken: string, owner: nat): (r: Db)
    ensures r.xflocks == db.xflocks + [Xflock(db.nextXflock, src, srcToken, dst, dstToken, owner)]
    ensures r == db.(xflocks := r.xflocks, nextXflock := db.nextXflock + 1)
  {
    db.(xflocks := db.xflocks + [Xflock(db.nextXflock, src, srcToken, dst, dstToken, owner)],
        nextXflock := db.nextXflock + 1)
  }

  /** A created link is found by the lookup on ids. */
  lemma XflockCreateThenGet(db: Db, src: nat, srcToken: string, dst: nat, dstToken: string, owner: nat)
    ensures db.nextXflock in XflockGet(XflockCreate(db, src, srcToken, dst, dstToken, owner), src, dst, owner)
  {
    var r := XflockCreate(db, src, srcToken, dst, dstToken, owner);
    assert r.xflocks[|r.xflocks| - 1] in r.xflocks;
  }

  datatype XflockPair = XflockPair(flockA: string, flockB: string)

  /** The (source, destination) tokens of the links `owner` has declared. */
  function XflockList(db: Db, owner: nat): (r: seq<XflockPair>)
    ensures forall p :: p in r <==> exists x :: x in db.xflocks && x.owner == owner && p == XflockPair(x.srcToken, x.dstToken)
  {
    var hits := Filter(db.xflocks, (x: Xflock) => x.owner == owner);
    var r := Map(hits, (x: Xflock) => XflockPair(x.srcToken, x.dstToken));
    forall p ensures p in r <==> exists x :: x in db.xflocks && x.owner == owner && p == XflockPair(x.srcToken, x.dstToken) {
      MapMember(hits, (x: Xflock) => XflockPair(x.srcToken, x.dstToken), p);
    }
    r
  }

  datatype PeerRow = PeerRow(other: string, owner: nat)

  function LinkScope(srcToken: string, owner: nat): Xflock -> bool
  {
    (x: Xflock) => x.srcToken == srcToken && x.owner == owner
  }

  /** `owner` has a link from flock `srcToken` to flock `other`. */
  ghost predicate LinkedTo(db: Db, srcToken: string, owner: nat, other: string)
  {
    exists x :: x in db.xflocks && x.srcToken == srcToken && x.owner == owner && x.dstToken == other
  }

  /** Destination tokens of `owner`'s links out of `srcToken`. */
  function LinkTargets(db: Db, srcToken: string, owner: nat): (r: seq<string>)
    ensures forall o :: o in r <==> LinkedTo(db, srcToken, owner, o)
  {
    var mine := Filter(db.xflocks, LinkScope(srcToken, owner));
    var r := Map(mine, (x: Xflock) => x.dstToken);
    forall o ensures o in r <==> LinkedTo(db, srcToken, owner, o) {
      MapMember(mine, (x: Xflock) => x.dstToken, o);
    }
    r
  }

  /** The rows one flock contributes to the join: one per link naming it. */
  function PeersNamed(xfl: seq<string>, n: Network): (r: seq<PeerRow>)
    ensures forall p :: p in r <==> n.token in xfl && p == PeerRow(n.token, n.owner)
  {
    var named := Filter(xfl, (o: string) => o == n.token);
    assert named != [] ==> named[0] in named;
    assert n.token in xfl ==> n.token in named;
    var r := Map(named, (o: string) => PeerRow(o, n.owner));
    forall p ensures p in r <==> n.token in xfl && p == PeerRow(n.token, n.owner) {
      MapMember(named, (o: string) => PeerRow(o, n.owner), p);
    }
    r
  }

  function JoinPeers(xfl: seq<string>): Network -> seq<PeerRow>
  {
    (n: Network) => PeersNamed(xfl, n)
  }

  /** The flocks `srcToken` links to under `owner`, each with its current owner;
      a destination with no flock row left is dropped by the join. */
  function XflockListForFlock(db: Db, srcToken: string, owner: nat): (r: seq<PeerRow>)
    ensures forall p :: p in r <==> LinkedTo(db, srcToken, owner, p.other)
                                    && exists n :: n in db.networks && n.token == p.other && n.owner == p.owner
  {
    var xfl := LinkTargets(db, srcToken, owner);
    var r := FlatMap(db.networks, JoinPeers(xfl));
    forall p ensures p in r <==> LinkedTo(db, srcToken, owner, p.other)
                                 && exists n :: n in db.networks && n.token == p.other && n.owner == p.owner {
      if LinkedTo(db, srcToken, owner, p.other) && exists n :: n in db.networks && n.token == p.other && n.owner == p.owner {
        var n :| n in db.networks && n.token == p.other && n.owner == p.owner;
        assert p in JoinPeers(xfl)(n);
      }
    }
    r
  }

  /** Deletes only the caller's own direction of a link. */
  function XflockDelete(db: Db, srcToken: string, dstToken: string, owner: nat): (r: Db)
    ensures forall x :: x in r.xflocks <==> x in db.xflocks && !(x.srcToken == srcToken && x.dstToken == dstToken && x.owner == owner)
    ensures r == db.(xflocks := r.xflocks)
  {
    db.(xflocks := Filter(db.xflocks, (x: Xflock) => !(x.srcToken == srcToken && x.dstToken == dstToken && x.owner == owner)))
  }

  // ----- SQL_DEVICE_CREATE, SQL_DEVICE_DELETE, SQL_DEVICE_APPROVE -----

  /** A new device row with the seven columns the statement sets; returns its
      serial id. `device_approved` and `device_created` come from the schema,
      which is not part of this model: they are taken to default to false and
      to the time of the insert, which is `now`. */
  function DeviceCreate(db: Db, kek: nat, cid: string, network: nat, key: string, account: nat,
                        networkToken: string, pubkey: string, now: int): (e: Effect<nat>)
    ensures e.db.devices == db.devices + [Device(db.nextDevice, kek, cid, network, key, account, networkToken, pubkey, false, now, db.defaults.deviceBwLimit)]
    ensures e.db == db.(devices := e.db.devices, nextDevice := db.nextDevice + 1)
    ensures e.rows == [db.nextDevice]
  {
    var d := Device(db.nextDevice, kek, cid, network, key, account, networkToken, pubkey, false, now, db.defaults.deviceBwLimit);
    Effect(db.(devices := db.devices + [d], nextDevice := db.nextDevice + 1), [d.id])
  }

  /** Deletes the devices matching (flock token, device id, account), returning their ids. */
  function DeviceDelete(db: Db, networkToken: string, cid: string, account: nat): (e: Effect<nat>)
    ensures forall d :: d in e.db.devices <==> d in db.devices && !(d.networkToken == networkToken && d.cathedralId == cid && d.account == account)
    ensures |e.rows| == Count(db.devices, DeviceScope(networkToken, cid, account))
    ensures e.db == db.(devices := e.db.devices)
  {
    var doomed := Filter(db.devices, DeviceScope(networkToken, cid, account));
    Effect(db.(devices := Filter(db.devices, (d: Device) => !(d.networkToken == networkToken && d.cathedralId == cid && d.account == account))),
           Map(doomed, (d: Device) => d.id))
  }

  function Approved(networkToken: string, cid: string, kek: nat): Device -> Device
  {
    (d: Device) => if d.networkToken == networkToken && d.cathedralId == cid && !d.approved
                   then d.(approved := true, kek := kek) else d
  }

  /** Approves the still-unapproved devices matching (flock token, device id)
      with key slot `kek`, returning one row per device it changed. */
  function DeviceApprove(db: Db, networkToken: string, cid: string, kek: nat): (e: Effect<nat>)
    ensures |e.db.devices| == |db.devices|
    ensures forall i :: 0 <= i < |db.devices| ==>
      e.db.devices[i] == if PendingDevice(networkToken, cid)(db.devices[i]) then db.devices[i].(approved := true, kek := kek) else db.devices[i]
    ensures e.db == db.(devices := e.db.devices)
    ensures |e.rows| == Count(db.devices, PendingDevice(networkToken, cid))
    ensures forall k :: k in e.rows ==> k == kek
  {
    var hits := Filter(db.devices, PendingDevice(networkToken, cid));
    Effect(db.(devices := Map(db.devices, Approved(networkToken, cid, kek))),
           Map(hits, (d: Device) => kek))
  }

  /** After an approval no matching device is still pending. */
  lemma ApproveLeavesNonePending(db: Db, networkToken: string, cid: string, kek: nat)
    ensures forall d :: d in DeviceApprove(db, networkToken, cid, kek).db.devices ==> !PendingDevice(networkToken, cid)(d)
  {
    var after := DeviceApprove(db, networkToken, cid, kek).db.devices;
    forall d | d in after ensures !PendingDevice(networkToken, cid)(d) {
      var i :| 0 <= i < |after| && after[i] == d;
    }
  }

  /** With no pending match, an approval returns nothing and changes nothing. */
  lemma ApproveNonePending(db: Db, networkToken: string, cid: string, kek: nat)
    requires forall d :: d in db.devices ==> !PendingDevice(networkToken, cid)(d)
    ensures DeviceApprove(db, networkToken, cid, kek) == Effect(db, [])
  {
    var e := DeviceApprove(db, networkToken, cid, kek);
    assert forall i :: 0 <= i < |db.devices| ==> !PendingDevice(networkToken, cid)(db.devices[i]);
    assert e.db.devices == db.devices;
  }

  /** A second approval of the same device returns nothing and changes nothing. */
  lemma DeviceApproveTwice(db: Db, networkToken: string, cid: string, k1: nat, k2: nat)
    ensures var once := DeviceApprove(db, networkToken, cid, k1).db;
            DeviceApprove(once, networkToken, cid, k2) == Effect(once, [])
  {
    ApproveLeavesNonePending(db, networkToken, cid, k1);
    ApproveNonePending(DeviceApprove(db, networkToken, cid, k1).db, networkToken, cid, k2);
  }

  // ----- SQL_DEVICE_LIST -----

  datatype DeviceListRow = DeviceListRow(kek: nat, cid: string, approved: bool, created: int)

  /** `ORDER BY device_approved = 'f' DESC, device_kek ASC`. */
  predicate ListLe(a: DeviceListRow, b: DeviceListRow)
  {
    (!a.approved && b.approved) || (a.approved == b.approved && a.kek <= b.kek)
  }

  lemma ListLeIsTotalPreorder()
    ensures IsTotalPreorder(ListLe)
  {
  }

  function ListRowOf(d: Device): DeviceListRow
  {
    DeviceListRow(d.kek, d.cathedralId, d.approved, d.created)
  }

  function FlockOfDevice(token: string, owner: nat, d: Device): Network -> bool
  {
    (n: Network) => n.id == d.network && n.token == token && n.owner == owner && d.account == owner
  }

  /** The device belongs to `owner` and its flock id names `owner`'s flock `token`. */
  ghost predicate InOwnedFlock(db: Db, token: string, owner: nat, d: Device)
  {
    d.account == owner && exists n :: n in db.networks && n.id == d.network && n.token == token && n.owner == owner
  }

  /** The rows one device contributes to the join: one per matching flock row. */
  function ListRowsOf(db: Db, token: string, owner: nat, d: Device): (r: seq<DeviceListRow>)
    ensures forall row :: row in r <==> InOwnedFlock(db, token, owner, d) && row == ListRowOf(d)
  {
    var ns := Filter(db.networks, FlockOfDevice(token, owner, d));
    assert ns != [] ==> ns[0] in ns;
    assert InOwnedFlock(db, token, owner, d) ==> ns != [] by {
      if InOwnedFlock(db, token, owner, d) {
        var n :| n in db.networks && n.id == d.network && n.token == token && n.owner == owner;
        assert n in ns;
      }
    }
    Map(ns, (n: Network) => ListRowOf(d))
  }

  function JoinListRows(db: Db, token: string, owner: nat): Device -> seq<DeviceListRow>
  {
    (d: Device) => ListRowsOf(db, token, owner, d)
  }

  /** The devices of `owner` in `owner`'s flock `token` (joined through the
      device's flock id), unapproved first, then by key slot. Rows that tie
      keep table order. */
  function DeviceList(db: Db, token: string, owner: nat): (r: seq<DeviceListRow>)
    ensures forall row :: row in r <==> exists d :: d in db.devices && InOwnedFlock(db, token, owner, d) && row == ListRowOf(d)
    ensures SortedBy(r, ListLe)
  {
    var joined := FlatMap(db.devices, JoinListRows(db, token, owner));
    var r := SortBy(joined, ListLe);
    assert SortedBy(r, ListLe) by {
      ListLeIsTotalPreorder();
      SortSorted(joined, ListLe);
    }
    assert forall row :: row in r <==> row in joined by {
      forall row ensures row in r <==> row in joined {
        assert row in r <==> row in multiset(r);
        assert row in joined <==> row in multiset(joined);
      }
    }
    r
  }

  /** Flock ids name one flock row each. */
  ghost predicate UniqueNetworkIds(db: Db)
  {
    forall i, j :: 0 <= i < j < |db.networks| ==> db.networks[i].id != db.networks[j].id
  }

  /** The device is `owner`'s and its flock id names `owner`'s flock `token`. */
  function OwnedFlockDevice(db: Db, token: string, owner: nat): Device -> bool
  {
    (d: Device) => d.account == owner && exists n :: n in db.networks && n.id == d.network && n.token == token && n.owner == owner
  }

  /** With unique flock ids the listing has one row per device of the owner's
      flock: devices that agree on every listed column still give a row each. */
  lemma DeviceListCount(db: Db, token: string, owner: nat)
    requires UniqueNetworkIds(db)
    ensures |DeviceList(db, token, owner)| == Count(db.devices, OwnedFlockDevice(db, token, owner))
  {
    var f := JoinListRows(db, token, owner);
    var p := OwnedFlockDevice(db, token, owner);
    forall d | d in db.devices ensures |f(d)| == if p(d) then 1 else 0 {
      var q := FlockOfDevice(token, owner, d);
      CountAtMostOne(db.networks, q);
      var ns := Filter(db.networks, q);
      assert |f(d)| == |ns|;
      if p(d) {
        var n :| n in db.networks && n.id == d.network && n.token == token && n.owner == owner;
        assert n in ns;
      } else {
        assert ns == [];
      }
    }
    FlatMapCount(db.devices, f, p);
    var joined := FlatMap(db.devices, f);
    assert |multiset(SortBy(joined, ListLe))| == |multiset(joined)|;
  }

  /** At most one row satisfies `p` when no two positions do. */
  lemma {:induction false} CountAtMostOne<T(!new)>(s: seq<T>, p: T -> bool)
    requires forall i, j :: 0 <= i < j < |s| && p(s[i]) ==> !p(s[j])
    ensures Count(s, p) <= 1
  {
    if s != [] {
      if p(s[0]) {
        forall x | x in s[1..] ensures !p(x) {
          var k :| 0 <= k < |s[1..]| && s[1..][k] == x;
          assert s[k + 1] == x;
        }
      } else {
        forall i, j | 0 <= i < j < |s[1..]| && p(s[1..][i]) ensures !p(s[1..][j]) {
          assert s[1..][i] == s[i + 1] && s[1..][j] == s[j + 1];
        }
        CountAtMostOne(s[1..], p);
      }
    }
  }

  /** A join that gives one row exactly for the rows satisfying `p` and none
      for the rest has `Count(s, p)` rows. */
  lemma {:induction false} FlatMapCount<T(!new), U(!new)>(s: seq<T>, f: T -> seq<U>, p: T -> bool)
    requires forall x :: x in s ==> |f(x)| == if p(x) then 1 else 0
    ensures |FlatMap(s, f)| == Count(s, p)
  {
    if s != [] {
      assert forall x :: x in s[1..] ==> x in s;
      FlatMapCount(s[1..], f, p);
    }
  }

  // ----- SQL_DEVICE_LIST_ALL_FOR_NETWORK -----

  datatype SlotRow = SlotRow(kek: nat, cid: string)

  function FlockNamed(token: string, d: Device): Network -> bool
  {
    (n: Network) => n.id == d.network && n.token == token
  }

  /** The device's flock id names a flock with that token. */
  ghost predicate InFlock(db: Db, token: string, d: Device)
  {
    exists n :: n in db.networks && n.id == d.network && n.token == token
  }

  function SlotRowsOf(db: Db, token: string, d: Device): (r: seq<SlotRow>)
    ensures forall row :: row in r <==> InFlock(db, token, d) && row == SlotRow(d.kek, d.cathedralId)
  {
    var ns := Filter(db.networks, FlockNamed(token, d));
    assert ns != [] ==> ns[0] in ns;
    assert InFlock(db, token, d) ==> ns != [] by {
      if InFlock(db, token, d) {
        var n :| n in db.networks && n.id == d.network && n.token == token;
        assert n in ns;
      }
    }
    Map(ns, (n: Network) => SlotRow(d.kek, d.cathedralId))
  }

  function JoinSlotRows(db: Db, token: string): Device -> seq<SlotRow>
  {
    (d: Device) => SlotRowsOf(db, token, d)
  }

  /** Key slots of every device of the flock `token`, approved or not, found
      through the device's flock id. */
  function DeviceListAllForNetwork(db: Db, token: string): (r: seq<SlotRow>)
    ensures forall row :: row in r <==> exists d :: d in db.devices && InFlock(db, token, d) && row == SlotRow(d.kek, d.cathedralId)
  {
    FlatMap(db.devices, JoinSlotRows(db, token))
  }

  // ----- SQL_DEVICE_RENEW, SQL_DEVICE_PUBKEY -----

  datatype RenewRow = RenewRow(cid: string, networkToken: string, kek: nat)

  function Rekeyed(key: string, cid: string, account: nat): Device -> Device
  {
    (d: Device) => if d.cathedralId == cid && d.account == account then d.(cathedralKey := key) else d
  }

  /** Replaces the secret of the account's devices with that device id, in any flock. */
  function DeviceRenew(db: Db, key: string, cid: string, account: nat): (e: Effect<RenewRow>)
    ensures |e.db.devices| == |db.devices|
    ensures forall i :: 0 <= i < |db.devices| ==>
      e.db.devices[i] == if db.devices[i].cathedralId == cid && db.devices[i].account == account then db.devices[i].(cathedralKey := key) else db.devices[i]
    ensures e.db == db.(devices := e.db.devices)
    ensures forall row :: row in e.rows <==> exists d :: d in db.devices && d.cathedralId == cid && d.account == account && row == RenewRow(cid, d.networkToken, d.kek)
  {
    var hits := Filter(db.devices, (d: Device) => d.cathedralId == cid && d.account == account);
    var rows := Map(hits, (d: Device) => RenewRow(d.cathedralId, d.networkToken, d.kek));
    forall row ensures row in rows <==> exists d :: d in db.devices && d.cathedralId == cid && d.account == account && row == RenewRow(cid, d.networkToken, d.kek) {
      MapMember(hits, (d: Device) => RenewRow(d.cathedralId, d.networkToken, d.kek), row);
    }
    Effect(db.(devices := Map(db.devices, Rekeyed(key, cid, account))), rows)
  }

  function Repubkeyed(pubkey: string, cid: string, account: nat): Device -> Device
  {
    (d: Device) => if d.cathedralId == cid && d.account == account then d.(pubkey := pubkey) else d
  }

  /** Replaces the public key of the account's devices with that device id. */
  function DevicePubkey(db: Db, pubkey: string, cid: string, account: nat): (e: Effect<string>)
    ensures |e.db.devices| == |db.devices|
    ensures forall i :: 0 <= i < |db.devices| ==>
      e.db.devices[i] == if db.devices[i].cathedralId == cid && db.devices[i].account == account then db.devices[i].(pubkey := pubkey) else db.devices[i]
    ensures e.db == db.(devices := e.db.devices)
    ensures |e.rows| == Count(db.devices, DeviceOfAccount(cid, account))
    ensures forall c :: c in e.rows ==> c == cid
  {
    var hits := Filter(db.devices, DeviceOfAccount(cid, account));
    var rows := Map(hits, (d: Device) => d.cathedralId);
    forall c | c in rows ensures c == cid {
      MapMember(hits, (d: Device) => d.cathedralId, c);
    }
    Effect(db.(devices := Map(db.devices, Repubkeyed(pubkey, cid, account))), rows)
  }

  // ----- SQL_EXPIRE_TOKENS -----

  /** The reaper: removes exactly the tokens whose expiry lies before `now`. */
  function ExpireTokens(db: Db, now: int): (r: Db)
    ensures forall t :: t in r.tokens <==> t in db.tokens && t.expires >= now
    ensures r == db.(tokens := r.tokens)
  {
    db.(tokens := Filter(db.tokens, (t: Token) => t.expires >= now))
  }

  // ----- properties relating several statements -----

  /** The first `account_info` row comes from a token with that value and
      channel and from that token's account. */
  lemma AccountInfoHead(db: Db, value: string, web: bool)
    requires AccountInfo(db, value, web) != []
    ensures exists t, a :: t in db.tokens && a in db.accounts && t.value == value && t.web == web && a.id == t.account
                           && AccountInfo(db, value, web)[0] == AuthRowOf(a)
  {
    var info := AccountInfo(db, value, web);
    var hits := Filter(db.tokens, SessionToken(value, web));
    assert info[0] in info;
    var t :| t in hits && info[0] in JoinAccounts(db)(t);
    MapMember(Filter(db.accounts, AccountNamed(t.account)), AuthRowOf, info[0]);
  }

  /** A successful lookup pushes forward the expiry of every token with that value. */
  lemma LookupRefreshesExpiry(db: Db, value: string, web: bool, now: int, i: nat)
    requires i < |db.tokens| && db.tokens[i].value == value
    requires AccountFromToken(db, value, web, now).rows != []
    ensures |AccountFromToken(db, value, web, now).db.tokens| == |db.tokens|
    ensures AccountFromToken(db, value, web, now).db.tokens[i].expires == now + TokenLifetime
  {
  }

  /** A token whose value no other token shares, and which has an account,
      yields exactly one row. */
  lemma UniqueTokenSingleRow(db: Db, i: nat, now: int)
    requires i < |db.tokens|
    requires forall j :: 0 <= j < |db.tokens| && j != i ==> db.tokens[j].value != db.tokens[i].value
    requires HasAccount(db, db.tokens[i].account)
    ensures |AccountFromToken(db, db.tokens[i].value, db.tokens[i].web, now).rows| == 1
  {
    var t := db.tokens[i];
    assert t in db.tokens;
    assert HasSession(db, t.value, t.web);
    CountOne(db.tokens, TokenNamed(t.value), i);
  }

  /** When every token with that value belongs to one account, a single row
      carries that account. */
  lemma SingleRowAccount(db: Db, value: string, web: bool, now: int, owner: nat)
    requires forall u :: u in db.tokens && u.value == value ==> u.account == owner
    requires |AccountFromToken(db, value, web, now).rows| == 1
    ensures AccountFromToken(db, value, web, now).rows[0].info.accountId == owner
  {
    SingleRowIdentifiesToken(db, value, web, now);
  }

  /** A value held only at index `i` is held only by the row at `i`. */
  lemma UniqueAtIndex(s: seq<Token>, i: nat)
    requires i < |s|
    requires forall j :: 0 <= j < |s| && j != i ==> s[j].value != s[i].value
    ensures forall u :: u in s && u.value == s[i].value ==> u == s[i]
  {
  }

  /** The lookup does not look at a token's expiry: a token past its expiry
      still authenticates until the reaper has removed it, and the lookup
      pushes its expiry forward again. */
  lemma ExpiredTokenStillAuthenticates(db: Db, i: nat, now: int)
    requires i < |db.tokens| && db.tokens[i].expires < now
    requires forall j :: 0 <= j < |db.tokens| && j != i ==> db.tokens[j].value != db.tokens[i].value
    requires HasAccount(db, db.tokens[i].account)
    ensures var t := db.tokens[i];
            var e := AccountFromToken(db, t.value, t.web, now);
            |e.rows| == 1 && e.rows[0].info.accountId == t.account
            && |e.db.tokens| == |db.tokens| && e.db.tokens[i].expires == now + TokenLifetime
  {
    UniqueTokenSingleRow(db, i, now);
    var t := db.tokens[i];
    UniqueAtIndex(db.tokens, i);
    SingleRowAccount(db, t.value, t.web, now, t.account);
    LookupRefreshesExpiry(db, t.value, t.web, now, i);
  }

  /** What a single returned row tells the gate: exactly one token carries that
      value, it was issued for the same channel, and the row's account is that
      token's account. */
  lemma SingleRowIdentifiesToken(db: Db, value: string, web: bool, now: int)
    requires |AccountFromToken(db, value, web, now).rows| == 1
    ensures Count(db.tokens, TokenNamed(value)) == 1
    ensures exists t, a :: t in db.tokens && a in db.accounts && t.value == value && t.web == web && a.id == t.account
                           && AccountFromToken(db, value, web, now).rows[0].info == AuthRowOf(a)
  {
    var e := AccountFromToken(db, value, web, now);
    AccountFromTokenRows(db, value, web, now);
    assert e.rows[0] in e.rows;
    AccountInfoHead(db, value, web);
  }

  /** A token never authenticates on the other channel. */
  lemma ChannelsDoNotCross(db: Db, value: string, web: bool, now: int)
    requires forall t :: t in db.tokens && t.value == value ==> t.web != web
    ensures AccountFromToken(db, value, web, now) == Effect(db, [])
  {
  }

  /** Once the reaper has run, a token that had expired no longer authenticates. */
  lemma ReapedTokenRejected(db: Db, value: string, web: bool, now: int, later: int)
    requires forall t :: t in db.tokens && t.value == value ==> t.expires < now
    ensures var reaped := ExpireTokens(db, now);
            AccountFromToken(reaped, value, web, later) == Effect(reaped, [])
  {
  }

  /** A deleted account's sessions stop authenticating (its token rows stay). */
  lemma DeletedAccountRejected(db: Db, id: nat, value: string, web: bool, now: int)
    requires forall t :: t in db.tokens && t.value == value ==> t.account == id
    ensures var gone := AccountDelete(db, id);
            AccountFromToken(gone, value, web, now) == Effect(gone, []) && gone.tokens == db.tokens
  {
  }

  /** Adding time overwrites the expiry: repeating it at the same `now` changes nothing. */
  lemma AccountTimeAddIdempotent(db: Db, id: nat, now: int)
    ensures AccountTimeAdd(AccountTimeAdd(db, id, now), id, now) == AccountTimeAdd(db, id, now)
  {
    var once := AccountTimeAdd(db, id, now);
    var twice := AccountTimeAdd(once, id, now);
    assert twice.accounts == once.accounts;
  }

  /** Deleting one direction of a link keeps every row of the reverse
      direction declared by the other owner. */
  lemma XflockDeleteKeepsReverse(db: Db, a: string, b: string, ownerA: nat, x: Xflock)
    requires x in db.xflocks && x.srcToken == b && x.dstToken == a && x.owner != ownerA
    ensures x in XflockDelete(db, a, b, ownerA).xflocks
  {
  }
}
