/** The settings generator (`src/api/sync.py`): every run collects the flocks
    whose owner still has subscription time, writes the key material of their
    approved devices into an identities tree, and publishes a settings file
    naming those devices and the cathedrals to federate with. */
module Sync {
  import opened Util
  import opened Text
  import opened Tables

  // ----- the job's queries -----

  /** An account row with id `owner` whose subscription runs past `now`. */
  ghost predicate LiveOwner(db: Db, owner: nat, now: int)
  {
    exists a :: a in db.accounts && a.id == owner && a.timeLeft > now
  }

  function LiveAccount(owner: nat, now: int): Account -> bool
  {
    (a: Account) => a.id == owner && a.timeLeft > now
  }

  /** One flock joined with the live accounts: its token once per matching account row. */
  function TokenIfLive(db: Db, now: int, n: Network): (r: seq<string>)
    ensures forall tok :: tok in r <==> LiveOwner(db, n.owner, now) && tok == n.token
  {
    var accs := Filter(db.accounts, LiveAccount(n.owner, now));
    assert accs != [] ==> accs[0] in accs;
    var r := Map(accs, (a: Account) => n.token);
    forall tok ensures tok in r <==> LiveOwner(db, n.owner, now) && tok == n.token {
      MapMember(accs, (a: Account) => n.token, tok);
    }
    r
  }

  function JoinLive(db: Db, now: int): Network -> seq<string>
  {
    (n: Network) => TokenIfLive(db, now, n)
  }

  /** `SQL_GET_FLOCKS_WITH_TIME_LEFT`: the token of every flock whose owner has
      time left, each once. */
  function FlocksWithTimeLeft(db: Db, now: int): (r: seq<string>)
    ensures NoDuplicates(r)
    ensures forall tok :: tok in r <==> exists n :: n in db.networks && n.token == tok && LiveOwner(db, n.owner, now)
  {
    var joined := FlatMap(db.networks, JoinLive(db, now));
    forall tok ensures tok in joined <==> exists n :: n in db.networks && n.token == tok && LiveOwner(db, n.owner, now) {
      if exists n :: n in db.networks && n.token == tok && LiveOwner(db, n.owner, now) {
        var n :| n in db.networks && n.token == tok && LiveOwner(db, n.owner, now);
        assert tok in JoinLive(db, now)(n);
      }
    }
    Distinct(joined)
  }

  function ApprovedIn(token: string): Device -> bool
  {
    (d: Device) => d.networkToken == token && d.approved
  }

  /** `SQL_GET_DEVICES_PER_FLOCK`: the approved devices of one flock, in table order. */
  function DevicesPerFlock(db: Db, token: string): (r: seq<Device>)
    ensures forall d :: d in r <==> d in db.devices && d.networkToken == token && d.approved
  {
    Filter(db.devices, ApprovedIn(token))
  }

  // ----- the settings text -----

  function SettingsHeader(counter: int): string
  {
    "# settings " + Decimal(counter)
  }

  function FlockOpen(token: string): string
  {
    "flock " + token + " {"
  }

  /** A device's line: its id, its key slot as `hex()` writes it, its bandwidth limit. */
  function AllowLine(d: Device): string
  {
    "\tallow " + d.cathedralId + " spi " + PyHex(d.kek) + " " + Decimal(d.bwLimit)
  }

  function AmbryLine(token: string): string
  {
    "\tambry /home/cathedral/shared/ambries/ambry-" + token
  }

  /** The block of one flock: its opening line, one line per approved device,
      the ambry line and the closing brace. */
  function FlockLines(db: Db, token: string): seq<string>
  {
    [FlockOpen(token)] + Map(DevicesPerFlock(db, token), AllowLine) + [AmbryLine(token), "}"]
  }

  /** A flock block cut short after `k` devices. */
  lemma FlockLinesCut(db: Db, token: string, k: nat)
    requires k <= |DevicesPerFlock(db, token)|
    ensures FlockLines(db, token)[..k + 1] == [FlockOpen(token)] + Map(DevicesPerFlock(db, token)[..k], AllowLine)
  {
    var ds := DevicesPerFlock(db, token);
    TakeAfter([FlockOpen(token)], Map(ds, AllowLine), [AmbryLine(token), "}"], k);
    MapTake(ds, AllowLine, k);
  }

  /** The blocks of several flocks, one after the other. */
  function Blocks(db: Db, tokens: seq<string>): seq<string>
  {
    if tokens == [] then [] else FlockLines(db, tokens[0]) + Blocks(db, tokens[1..])
  }

  function FederateLine(c: Cathedral): string
  {
    "federate " + c.ip + " " + Decimal(c.port)
  }

  /** The lines of the settings a complete run with the given counter writes. */
  function SettingsLines(db: Db, now: int, counter: int): seq<string>
  {
    [SettingsHeader(counter)] + Blocks(db, FlocksWithTimeLeft(db, now)) + Map(db.cathedrals, FederateLine)
  }

  lemma {:induction false} BlocksConcat(db: Db, a: seq<string>, b: seq<string>)
    ensures Blocks(db, a + b) == Blocks(db, a) + Blocks(db, b)
  {
    if a == [] {
      assert a + b == b;
    } else {
      assert (a + b)[1..] == a[1..] + b;
      BlocksConcat(db, a[1..], b);
    }
  }

  lemma {:induction false} BlocksMember(db: Db, tokens: seq<string>, l: string)
    ensures l in Blocks(db, tokens) <==> exists t :: t in tokens && l in FlockLines(db, t)
  {
    if tokens != [] {
      BlocksMember(db, tokens[1..], l);
      if exists t :: t in tokens && l in FlockLines(db, t) {
        var t :| t in tokens && l in FlockLines(db, t);
        if t != tokens[0] {
          assert t in tokens[1..];
        }
      }
    }
  }

  /** The first line of every settings text names the run that wrote it. */
  lemma SettingsStartWithCounter(db: Db, now: int, counter: int)
    ensures var text := JoinLines(SettingsLines(db, now, counter));
            var h := SettingsHeader(counter) + "\n";
            |h| <= |text| && text[..|h|] == h
  {
    var ls := SettingsLines(db, now, counter);
    assert ls[0] == SettingsHeader(counter);
    JoinLinesFirst(ls);
  }

  /** A flock of `tok` whose owner has time left. */
  ghost predicate LiveFlock(db: Db, tok: string, now: int)
  {
    exists n :: n in db.networks && n.token == tok && LiveOwner(db, n.owner, now)
  }

  /** The lines of one flock's block. */
  lemma FlockLineKinds(db: Db, token: string, l: string)
    requires l in FlockLines(db, token)
    ensures || l == FlockOpen(token) || l == AmbryLine(token) || l == "}"
            || exists d :: d in DevicesPerFlock(db, token) && l == AllowLine(d)
  {
    var ds := DevicesPerFlock(db, token);
    if l != FlockOpen(token) && l != AmbryLine(token) && l != "}" {
      assert l in Map(ds, AllowLine);
      MapMember(ds, AllowLine, l);
    }
  }

  /** Every line of the settings is the header, a line of the block of a flock
      whose owner has time left, the allow line of an approved device of such a
      flock, or the federate line of a cathedral. */
  lemma SettingsLineKinds(db: Db, now: int, counter: int, l: string)
    requires l in SettingsLines(db, now, counter)
    ensures || l == SettingsHeader(counter)
            || (exists t :: LiveFlock(db, t, now) && (l == FlockOpen(t) || l == AmbryLine(t) || l == "}"))
            || (exists d :: d in db.devices && d.approved && LiveFlock(db, d.networkToken, now) && l == AllowLine(d))
            || (exists c :: c in db.cathedrals && l == FederateLine(c))
  {
    var flocks := FlocksWithTimeLeft(db, now);
    var fed := Map(db.cathedrals, FederateLine);
    if l in fed {
      MapMember(db.cathedrals, FederateLine, l);
    } else if l != SettingsHeader(counter) {
      assert l in Blocks(db, flocks);
      BlocksMember(db, flocks, l);
      var t :| t in flocks && l in FlockLines(db, t);
      assert LiveFlock(db, t, now);
      FlockLineKinds(db, t, l);
    }
  }

  /** Conversely, every approved device of such a flock has its allow line in the settings. */
  lemma LiveApprovedListed(db: Db, now: int, counter: int, d: Device)
    requires d in db.devices && d.approved && LiveFlock(db, d.networkToken, now)
    ensures AllowLine(d) in SettingsLines(db, now, counter)
  {
    var flocks := FlocksWithTimeLeft(db, now);
    var t := d.networkToken;
    assert t in flocks;
    var ds := DevicesPerFlock(db, t);
    assert d in ds;
    MapMember(ds, AllowLine, AllowLine(d));
    assert AllowLine(d) in FlockLines(db, t);
    BlocksMember(db, flocks, AllowLine(d));
  }

  // ----- the files -----

  /** A file of the shared tree: key material is written in binary mode, the
      settings in text mode. */
  datatype Content = Binary(data: seq<byte>) | Textual(text: string)

  function IdentitiesDir(shared: string): string
  {
    shared + "/identities/"
  }

  function FlockDir(shared: string, token: string): string
  {
    IdentitiesDir(shared) + "flock-" + token
  }

  function KeyPath(shared: string, token: string, cid: string): string
  {
    FlockDir(shared, token) + "/" + cid + ".key"
  }

  function PubPath(shared: string, token: string, cid: string): string
  {
    FlockDir(shared, token) + "/" + cid + ".pub"
  }

  function SettingsPath(shared: string): string
  {
    shared + "/settings.conf"
  }

  function TmpPath(path: string): string
  {
    path + ".tmp"
  }

  /** Opening `path.tmp` for writing, writing `data` when it decoded, and
      renaming `path.tmp` to `path`; a failed decode leaves the truncated,
      empty temporary file behind. */
  function Published(fs: map<string, Content>, path: string, data: Option<seq<byte>>): map<string, Content>
  {
    if data.None? then fs[TmpPath(path) := Binary([])] else (fs - {TmpPath(path)})[path := Binary(data.value)]
  }

  /** Both stored hex strings of a device decode. */
  predicate Decodes(d: Device)
  {
    FromHex(d.cathedralKey).Some? && (d.pubkey == "NO-KEY" || FromHex(d.pubkey).Some?)
  }

  /** `b` differs from `a` at most at paths below `dir`. */
  ghost predicate AgreeOutside(a: map<string, Content>, b: map<string, Content>, dir: string)
  {
    forall p :: !(dir <= p) ==> (p in a <==> p in b) && (p in a ==> a[p] == b[p])
  }

  lemma AgreeOutsideTransitive(a: map<string, Content>, b: map<string, Content>, c: map<string, Content>, dir: string)
    requires AgreeOutside(a, b, dir) && AgreeOutside(b, c, dir)
    ensures AgreeOutside(a, c, dir)
  {
  }

  /** Every file of a device lies under the identities directory. */
  lemma DevicePathsUnder(shared: string, token: string, cid: string)
    ensures IdentitiesDir(shared) <= KeyPath(shared, token, cid) && IdentitiesDir(shared) <= TmpPath(KeyPath(shared, token, cid))
    ensures IdentitiesDir(shared) <= PubPath(shared, token, cid) && IdentitiesDir(shared) <= TmpPath(PubPath(shared, token, cid))
  {
    var dir := IdentitiesDir(shared);
    PrefixAppend(dir, dir, "flock-");
    PrefixAppend(dir, dir + "flock-", token);
    PrefixAppend(dir, FlockDir(shared, token), "/");
    PrefixAppend(dir, FlockDir(shared, token) + "/", cid);
    PrefixAppend(dir, FlockDir(shared, token) + "/" + cid, ".key");
    PrefixAppend(dir, FlockDir(shared, token) + "/" + cid, ".pub");
    PrefixAppend(dir, KeyPath(shared, token, cid), ".tmp");
    PrefixAppend(dir, PubPath(shared, token, cid), ".tmp");
  }

  lemma KeyPathNotPub(shared: string, token: string, cid: string)
    ensures KeyPath(shared, token, cid) != PubPath(shared, token, cid)
    ensures KeyPath(shared, token, cid) != TmpPath(PubPath(shared, token, cid))
  {
    var k := KeyPath(shared, token, cid);
    var p := PubPath(shared, token, cid);
    assert k[|k| - 3] == 'k' && p[|p| - 3] == 'p';
    assert |TmpPath(p)| == |k| + 4;
  }

  /** `flock_sync`'s loop body for one device: the `.key` file always, the
      `.pub` file unless the device has no public key. */
  function PublishDevice(shared: string, token: string, fs: map<string, Content>, d: Device): (o: (map<string, Content>, bool))
    ensures o.1 <==> Decodes(d)
    ensures AgreeOutside(fs, o.0, IdentitiesDir(shared))
    ensures o.1 ==> KeyPath(shared, token, d.cathedralId) in o.0 &&
                    o.0[KeyPath(shared, token, d.cathedralId)] == Binary(FromHex(d.cathedralKey).value)
    ensures o.1 && d.pubkey != "NO-KEY" ==>
              PubPath(shared, token, d.cathedralId) in o.0 &&
              o.0[PubPath(shared, token, d.cathedralId)] == Binary(FromHex(d.pubkey).value)
    ensures o.1 && d.pubkey == "NO-KEY" ==>
              var p := PubPath(shared, token, d.cathedralId);
              (p in o.0 <==> p in fs) && (p in fs ==> o.0[p] == fs[p])
  {
    DevicePathsUnder(shared, token, d.cathedralId);
    KeyPathNotPub(shared, token, d.cathedralId);
    var key := FromHex(d.cathedralKey);
    var fs1 := Published(fs, KeyPath(shared, token, d.cathedralId), key);
    if key.None? then (fs1, false)
    else if d.pubkey == "NO-KEY" then (fs1, true)
    else
      var pub := FromHex(d.pubkey);
      (Published(fs1, PubPath(shared, token, d.cathedralId), pub), pub.Some?)
  }

  /** The files after publishing devices in order until the first that does not
      decode, and how many were published completely. */
  datatype Progress = Progress(files: map<string, Content>, done: nat)

  function PublishAll(shared: string, token: string, fs: map<string, Content>, ds: seq<Device>): (p: Progress)
    ensures p.done <= |ds|
    decreases |ds|
  {
    if ds == [] then Progress(fs, 0)
    else
      var o := PublishDevice(shared, token, fs, ds[0]);
      if !o.1 then Progress(o.0, 0)
      else
        var rest := PublishAll(shared, token, o.0, ds[1..]);
        Progress(rest.files, rest.done + 1)
  }

  /** The devices before `done` decode and the one at `done`, if any, does not. */
  lemma {:induction false} PublishAllProgress(shared: string, token: string, fs: map<string, Content>, ds: seq<Device>)
    ensures var p := PublishAll(shared, token, fs, ds);
            && (forall i :: 0 <= i < p.done ==> Decodes(ds[i]))
            && (p.done < |ds| ==> !Decodes(ds[p.done]))
    decreases |ds|
  {
    if ds != [] {
      var o := PublishDevice(shared, token, fs, ds[0]);
      if o.1 {
        PublishAllProgress(shared, token, o.0, ds[1..]);
        var rest := PublishAll(shared, token, o.0, ds[1..]);
        assert forall i :: 1 <= i <= rest.done ==> ds[i] == ds[1..][i - 1];
      }
    }
  }

  /** Publishing a flock's devices changes nothing outside the identities tree. */
  lemma {:induction false} PublishAllAgree(shared: string, token: string, fs: map<string, Content>, ds: seq<Device>)
    ensures AgreeOutside(fs, PublishAll(shared, token, fs, ds).files, IdentitiesDir(shared))
    decreases |ds|
  {
    if ds != [] {
      var o := PublishDevice(shared, token, fs, ds[0]);
      if o.1 {
        PublishAllAgree(shared, token, o.0, ds[1..]);
        AgreeOutsideTransitive(fs, o.0, PublishAll(shared, token, o.0, ds[1..]).files, IdentitiesDir(shared));
      }
    }
  }

  /** Unfolds `PublishAll` at position `i`. */
  lemma PublishAllStep(shared: string, token: string, fs: map<string, Content>, ds: seq<Device>, i: nat)
    requires i < |ds|
    ensures var o := PublishDevice(shared, token, fs, ds[i]);
            var rest := PublishAll(shared, token, o.0, ds[i + 1..]);
            PublishAll(shared, token, fs, ds[i..]) == if o.1 then Progress(rest.files, rest.done + 1) else Progress(o.0, 0)
  {
    assert ds[i..][0] == ds[i] && ds[i..][1..] == ds[i + 1..];
  }

  /** `PublishDevice` as the two file publications it consists of. */
  lemma PublishDeviceSteps(shared: string, token: string, fs: map<string, Content>, d: Device)
    ensures var key := Published(fs, KeyPath(shared, token, d.cathedralId), FromHex(d.cathedralKey));
            var o := PublishDevice(shared, token, fs, d);
            if FromHex(d.cathedralKey).None? then o == (key, false)
            else if d.pubkey == "NO-KEY" then o == (key, true)
            else o == (Published(key, PubPath(shared, token, d.cathedralId), FromHex(d.pubkey)), FromHex(d.pubkey).Some?)
  {
  }

  /** A flock's devices were all published. */
  ghost predicate FlockDecodes(db: Db, token: string)
  {
    forall d :: d in db.devices && d.networkToken == token && d.approved ==> Decodes(d)
  }

  /** What syncing flocks in order leaves behind: the files, whether every
      flock was synced, and the settings lines written. */
  datatype Outcome = Outcome(files: map<string, Content>, ok: bool, lines: seq<string>)

  /** Flocks are synced in order until the first whose devices do not all
      decode; that flock's block stops after the line of the last device
      published. */
  function SyncAll(shared: string, db: Db, fs: map<string, Content>, tokens: seq<string>): Outcome
    decreases |tokens|
  {
    if tokens == [] then Outcome(fs, true, [])
    else
      var ds := DevicesPerFlock(db, tokens[0]);
      var p := PublishAll(shared, tokens[0], fs, ds);
      if p.done < |ds| then Outcome(p.files, false, FlockLines(db, tokens[0])[..p.done + 1])
      else
        var rest := SyncAll(shared, db, p.files, tokens[1..]);
        Outcome(rest.files, rest.ok, FlockLines(db, tokens[0]) + rest.lines)
  }

  /** The lines a run writes are a prefix of the blocks of its flocks, and all
      of them when every flock was synced. */
  lemma {:induction false} SyncAllLines(shared: string, db: Db, fs: map<string, Content>, tokens: seq<string>)
    ensures var o := SyncAll(shared, db, fs, tokens);
            o.lines <= Blocks(db, tokens) && (o.ok ==> o.lines == Blocks(db, tokens))
    decreases |tokens|
  {
    if tokens != [] {
      var ds := DevicesPerFlock(db, tokens[0]);
      var p := PublishAll(shared, tokens[0], fs, ds);
      var fl := FlockLines(db, tokens[0]);
      assert Blocks(db, tokens) == fl + Blocks(db, tokens[1..]);
      if p.done < |ds| {
        PrefixAppend(fl[..p.done + 1], fl, Blocks(db, tokens[1..]));
      } else {
        SyncAllLines(shared, db, p.files, tokens[1..]);
        PrefixPrepend(fl, SyncAll(shared, db, p.files, tokens[1..]).lines, Blocks(db, tokens[1..]));
      }
    }
  }

  /** A flock's devices are all published exactly when all of them decode. */
  lemma FlockPublished(shared: string, db: Db, fs: map<string, Content>, token: string)
    ensures var ds := DevicesPerFlock(db, token);
            PublishAll(shared, token, fs, ds).done == |ds| <==> FlockDecodes(db, token)
  {
    var ds := DevicesPerFlock(db, token);
    var p := PublishAll(shared, token, fs, ds);
    PublishAllProgress(shared, token, fs, ds);
    if p.done < |ds| {
      assert ds[p.done] in ds;
    } else {
      forall d | d in db.devices && d.networkToken == token && d.approved ensures Decodes(d) {
        var i :| 0 <= i < |ds| && ds[i] == d;
      }
    }
  }

  /** A run syncs every flock exactly when every stored key of an approved
      device of those flocks decodes. */
  lemma {:induction false} SyncAllOk(shared: string, db: Db, fs: map<string, Content>, tokens: seq<string>)
    ensures SyncAll(shared, db, fs, tokens).ok <==> forall t :: t in tokens ==> FlockDecodes(db, t)
    decreases |tokens|
  {
    if tokens != [] {
      var ds := DevicesPerFlock(db, tokens[0]);
      var p := PublishAll(shared, tokens[0], fs, ds);
      FlockPublished(shared, db, fs, tokens[0]);
      if p.done == |ds| {
        SyncAllOk(shared, db, p.files, tokens[1..]);
        assert forall t :: t in tokens ==> t == tokens[0] || t in tokens[1..];
      }
    }
  }

  /** A run changes nothing outside the identities tree before it writes the settings. */
  lemma {:induction false} SyncAllAgree(shared: string, db: Db, fs: map<string, Content>, tokens: seq<string>)
    ensures AgreeOutside(fs, SyncAll(shared, db, fs, tokens).files, IdentitiesDir(shared))
    decreases |tokens|
  {
    if tokens != [] {
      var ds := DevicesPerFlock(db, tokens[0]);
      var p := PublishAll(shared, tokens[0], fs, ds);
      PublishAllAgree(shared, tokens[0], fs, ds);
      if p.done == |ds| {
        SyncAllAgree(shared, db, p.files, tokens[1..]);
        AgreeOutsideTransitive(fs, p.files, SyncAll(shared, db, p.files, tokens[1..]).files, IdentitiesDir(shared));
      }
    }
  }

  /** The identities tree never reaches the settings file or its temporary file. */
  lemma SettingsOutsideIdentities(shared: string)
    ensures !(IdentitiesDir(shared) <= SettingsPath(shared))
    ensures !(IdentitiesDir(shared) <= TmpPath(SettingsPath(shared)))
  {
    var dir := IdentitiesDir(shared);
    assert dir[|shared| + 1] == 'i';
    assert SettingsPath(shared)[|shared| + 1] == 's';
    assert TmpPath(SettingsPath(shared))[|shared| + 1] == 's';
  }

  /** Syncing the identities leaves a published settings file as it was, so a
      run that fails keeps the previous settings. */
  lemma SyncKeepsSettings(shared: string, db: Db, fs: map<string, Content>, tokens: seq<string>)
    ensures var o := SyncAll(shared, db, fs, tokens);
            var s := SettingsPath(shared);
            (s in o.files <==> s in fs) && (s in fs ==> o.files[s] == fs[s])
  {
    SettingsOutsideIdentities(shared);
    SyncAllAgree(shared, db, fs, tokens);
  }

  /** Key material as the enrolment handler stores it (`secrets.token_hex(32)`
      and `body.hex()`) always decodes, and the public key file then holds
      exactly the bytes the device sent. */
  lemma EnrolledDevicePublishes(shared: string, token: string, fs: map<string, Content>, d: Device, body: seq<byte>)
    requires IsLowerHex(d.cathedralKey) && |d.cathedralKey| == 64
    requires d.pubkey == BytesHex(body)
    ensures Decodes(d)
    ensures var o := PublishDevice(shared, token, fs, d);
            var p := PubPath(shared, token, d.cathedralId);
            o.1 && p in o.0 && o.0[p] == Binary(body)
  {
    FromHexLowerHex(d.cathedralKey);
    FromHexBytesHex(body);
    assert d.pubkey != "NO-KEY" by {
      if body != [] {
        assert IsLowerHexChar(d.pubkey[0]);
      }
    }
  }

  // ----- the job -----

  class Sync {
    /** `SYNC_SHARED_PATH`. */
    const sharedPath: string
    var counter: int
    /** The settings text built so far, held as its lines: the text itself
        is `JoinLines(cfg)`, each line followed by a newline. */
    var cfg: seq<string>
    /** The shared tree, path by path. */
    var files: map<string, Content>

    /** `configure`: the counter starts at zero. */
    constructor(sharedPath: string, files: map<string, Content>)
      ensures this.sharedPath == sharedPath && this.files == files
      ensures counter == 0 && cfg == []
    {
      this.sharedPath := sharedPath;
      this.files := files;
      counter := 0;
      cfg := [];
    }

    method ConfigReset()
      modifies this
      ensures cfg == []
      ensures counter == old(counter) && files == old(files)
    {
      cfg := [];
    }

    /** `config`: one more line of settings text. */
    method Config(line: string)
      modifies this
      ensures cfg == old(cfg) + [line]
      ensures counter == old(counter) && files == old(files)
    {
      cfg := cfg + [line];
    }

    /** `config_write`: the text goes to `settings.conf.tmp`, which is then
        renamed over `settings.conf`; `writeOk` is false when the open, the
        write or the rename fails, which is logged and leaves the files alone. */
    method ConfigWrite(writeOk: bool)
      modifies this
      ensures writeOk ==> files == (old(files) - {TmpPath(SettingsPath(sharedPath))})[SettingsPath(sharedPath) := Textual(JoinLines(cfg))]
      ensures !writeOk ==> files == old(files)
      ensures cfg == old(cfg) && counter == old(counter)
    {
      if !writeOk {
        return;
      }
      var tmp := TmpPath(SettingsPath(sharedPath));
      RenameOverwrites(files, tmp, SettingsPath(sharedPath), Textual(JoinLines(cfg)));
      files := files[tmp := Textual(JoinLines(cfg))];
      files := (files - {tmp})[SettingsPath(sharedPath) := files[tmp]];
    }

    /** One key file: open `path.tmp` (creating it empty), decode, write, rename. */
    method PublishFile(path: string, hex: string) returns (ok: bool)
      modifies this
      ensures files == Published(old(files), path, FromHex(hex)) && (ok <==> FromHex(hex).Some?)
      ensures cfg == old(cfg) && counter == old(counter)
    {
      var tmp := TmpPath(path);
      files := files[tmp := Binary([])];
      var data := FromHex(hex);
      if data.None? {
        return false;
      }
      files := files[tmp := Binary(data.value)];
      files := (files - {tmp})[path := files[tmp]];
      ok := true;
    }

    /** The body of `flock_sync`'s loop for one device: its key files, then
        its allow line; `ok` is false when a stored key does not decode. */
    method DeviceSync(token: string, d: Device) returns (ok: bool)
      modifies this
      ensures files == PublishDevice(sharedPath, token, old(files), d).0
      ensures ok == PublishDevice(sharedPath, token, old(files), d).1
      ensures cfg == (if ok then old(cfg) + [AllowLine(d)] else old(cfg))
      ensures counter == old(counter)
    {
      PublishDeviceSteps(sharedPath, token, files, d);
      ok := PublishFile(KeyPath(sharedPath, token, d.cathedralId), d.cathedralKey);
      if !ok {
        return;
      }
      if d.pubkey != "NO-KEY" {
        ok := PublishFile(PubPath(sharedPath, token, d.cathedralId), d.pubkey);
        if !ok {
          return;
        }
      }
      Config(AllowLine(d));
    }

    /** The device loop of `flock_sync`: devices are published in order until
        one does not decode; `done` counts those published completely. */
    method DeviceLoop(token: string, devices: seq<Device>) returns (done: nat)
      modifies this
      ensures PublishAll(sharedPath, token, old(files), devices) == Progress(files, done)
      ensures cfg == old(cfg) + Map(devices[..done], AllowLine)
      ensures counter == old(counter)
    {
      ghost var total := PublishAll(sharedPath, token, files, devices);
      ghost var cfg0 := cfg;
      done := 0;
      assert devices[..0] == [];
      while done < |devices|
        invariant 0 <= done <= |devices|
        invariant PublishAll(sharedPath, token, files, devices[done..]).files == total.files
        invariant PublishAll(sharedPath, token, files, devices[done..]).done + done == total.done
        invariant cfg == cfg0 + Map(devices[..done], AllowLine)
        invariant counter == old(counter)
      {
        PublishAllStep(sharedPath, token, files, devices, done);
        var ok := DeviceSync(token, devices[done]);
        if !ok {
          return;
        }
        MapSnoc(devices, AllowLine, done);
        ConcatAssoc(cfg0, Map(devices[..done], AllowLine), [AllowLine(devices[done])]);
        done := done + 1;
      }
      assert devices[done..] == [];
    }

    /** `flock_sync`: the flock's block of settings and its devices' key files;
        `ok` is false when a stored key does not decode, which aborts the run
        after the devices before it were published. */
    method FlockSync(db: Db, token: string) returns (ok: bool)
      modifies this
      ensures var ds := DevicesPerFlock(db, token);
              var p := PublishAll(sharedPath, token, old(files), ds);
              files == p.files && (ok <==> p.done == |ds|) &&
              cfg == old(cfg) + (if ok then FlockLines(db, token) else FlockLines(db, token)[..p.done + 1])
      ensures counter == old(counter)
    {
      var devices := DevicesPerFlock(db, token);
      ghost var cfg0 := cfg;
      Config(FlockOpen(token));
      var done := DeviceLoop(token, devices);
      if done < |devices| {
        FlockCut(cfg0, db, token, done);
        return false;
      }
      Config(AmbryLine(token));
      Config("}");
      FlockWhole(cfg0, db, token, done);
      ok := true;
    }

    /** The flock loop of `run`: flocks are synced in order until one fails. */
    method FlockLoop(db: Db, flocks: seq<string>) returns (ok: bool)
      modifies this
      ensures var o := SyncAll(sharedPath, db, old(files), flocks);
              files == o.files && ok == o.ok && cfg == old(cfg) + o.lines
      ensures counter == old(counter)
    {
      ghost var total := SyncAll(sharedPath, db, files, flocks);
      ghost var cfg0 := cfg;
      var j := 0;
      while j < |flocks|
        invariant 0 <= j <= |flocks|
        invariant var o := SyncAll(sharedPath, db, files, flocks[j..]);
                  o.files == total.files && o.ok == total.ok && cfg + o.lines == cfg0 + total.lines
        invariant counter == old(counter)
      {
        SyncAllStep(sharedPath, db, files, flocks, j);
        ghost var rest := SyncAll(sharedPath, db, PublishAll(sharedPath, flocks[j], files, DevicesPerFlock(db, flocks[j])).files, flocks[j + 1..]);
        ConcatAssoc(cfg, FlockLines(db, flocks[j]), rest.lines);
        ok := FlockSync(db, flocks[j]);
        if !ok {
          return;
        }
        j := j + 1;
      }
      assert flocks[j..] == [] && cfg + [] == cfg;
      ok := true;
    }

    /** The cathedral loop of `run`: one federate line per cathedral. */
    method CathedralLoop(cathedrals: seq<Cathedral>)
      modifies this
      ensures cfg == old(cfg) + Map(cathedrals, FederateLine)
      ensures files == old(files) && counter == old(counter)
    {
      ghost var cfg0 := cfg;
      assert cathedrals[..0] == [];
      for k := 0 to |cathedrals|
        invariant cfg == cfg0 + Map(cathedrals[..k], FederateLine)
        invariant files == old(files) && counter == old(counter)
      {
        MapSnoc(cathedrals, FederateLine, k);
        ConcatAssoc(cfg0, Map(cathedrals[..k], FederateLine), [FederateLine(cathedrals[k])]);
        Config(FederateLine(cathedrals[k]));
      }
      assert cathedrals[..|cathedrals|] == cathedrals;
    }

    /** One pass of `run`: the counter goes up, the flocks with time left are
        synced, the cathedrals added, and the settings published; `writeOk`
        stands for the outcome of the file system calls in `config_write`. */
    method RunOnce(db: Db, now: int, writeOk: bool) returns (ok: bool)
      modifies this
      ensures counter == old(counter) + 1
      ensures var s := SyncAll(sharedPath, db, old(files), FlocksWithTimeLeft(db, now));
              (ok <==> s.ok) && cfg == RunLines(db, counter, s) &&
              files == if ok && writeOk then (s.files - {TmpPath(SettingsPath(sharedPath))})[SettingsPath(sharedPath) := Textual(JoinLines(cfg))] else s.files
    {
      var flocks := FlocksWithTimeLeft(db, now);
      ConfigReset();
      counter := counter + 1;
      Config(SettingsHeader(counter));
      assert cfg == [SettingsHeader(counter)];
      ok := FlockLoop(db, flocks);
      if !ok {
        assert cfg + [] == cfg;
        return;
      }
      CathedralLoop(db.cathedrals);
      ConfigWrite(writeOk);
    }
  }

  /** The settings lines a run builds: the header, the flock blocks it got
      through, and the federate lines when every flock was synced. */
  function RunLines(db: Db, counter: int, s: Outcome): seq<string>
  {
    [SettingsHeader(counter)] + s.lines + (if s.ok then Map(db.cathedrals, FederateLine) else [])
  }

  /** A complete run builds exactly the settings; a run cut short builds a
      prefix of them. */
  lemma RunLinesSettings(shared: string, db: Db, fs: map<string, Content>, now: int, counter: int)
    ensures var s := SyncAll(shared, db, fs, FlocksWithTimeLeft(db, now));
            var settings := SettingsLines(db, now, counter);
            RunLines(db, counter, s) <= settings && (s.ok ==> RunLines(db, counter, s) == settings)
  {
    var flocks := FlocksWithTimeLeft(db, now);
    var s := SyncAll(shared, db, fs, flocks);
    var h := [SettingsHeader(counter)];
    SyncAllLines(shared, db, fs, flocks);
    if !s.ok {
      PrefixPrepend(h, s.lines, Blocks(db, flocks));
      PrefixAppend(h + s.lines, h + Blocks(db, flocks), Map(db.cathedrals, FederateLine));
      assert RunLines(db, counter, s) == h + s.lines;
    }
  }

  /** The settings text a run builds is a prefix of the text a complete run
      writes. */
  lemma RunTextPrefix(shared: string, db: Db, fs: map<string, Content>, now: int, counter: int)
    ensures JoinLines(RunLines(db, counter, SyncAll(shared, db, fs, FlocksWithTimeLeft(db, now))))
            <= JoinLines(SettingsLines(db, now, counter))
  {
    RunLinesSettings(shared, db, fs, now, counter);
    JoinLinesPrefix(RunLines(db, counter, SyncAll(shared, db, fs, FlocksWithTimeLeft(db, now))), SettingsLines(db, now, counter));
  }

  /** Unfolds `SyncAll` at position `j`. */
  lemma SyncAllStep(shared: string, db: Db, fs: map<string, Content>, ts: seq<string>, j: nat)
    requires j < |ts|
    ensures var ds := DevicesPerFlock(db, ts[j]);
            var p := PublishAll(shared, ts[j], fs, ds);
            var rest := SyncAll(shared, db, p.files, ts[j + 1..]);
            SyncAll(shared, db, fs, ts[j..]) ==
              if p.done < |ds| then Outcome(p.files, false, FlockLines(db, ts[j])[..p.done + 1])
              else Outcome(rest.files, rest.ok, FlockLines(db, ts[j]) + rest.lines)
  {
    assert ts[j..][0] == ts[j] && ts[j..][1..] == ts[j + 1..];
  }

  /** The lines of a flock block cut short after `k` devices. */
  lemma FlockCut(pre: seq<string>, db: Db, token: string, k: nat)
    requires k <= |DevicesPerFlock(db, token)|
    ensures pre + [FlockOpen(token)] + Map(DevicesPerFlock(db, token)[..k], AllowLine) == pre + FlockLines(db, token)[..k + 1]
  {
    FlockLinesCut(db, token, k);
    ConcatAssoc(pre, [FlockOpen(token)], Map(DevicesPerFlock(db, token)[..k], AllowLine));
  }

  /** The lines of a flock block written to its end. */
  lemma FlockWhole(pre: seq<string>, db: Db, token: string, k: nat)
    requires k == |DevicesPerFlock(db, token)|
    ensures pre + [FlockOpen(token)] + Map(DevicesPerFlock(db, token)[..k], AllowLine) + [AmbryLine(token)] + ["}"] == pre + FlockLines(db, token)
  {
    var ds := DevicesPerFlock(db, token);
    assert ds[..k] == ds;
    Framed(pre, FlockOpen(token), Map(ds, AllowLine), AmbryLine(token), "}");
  }
}
