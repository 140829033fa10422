/** The rows of the `accounts` database as the API and the sync job see them.
    A table is a sequence of rows in insertion order; SQL leaves row order
    unspecified wherever a statement has no `ORDER BY`, and the model reads
    that order as table order. */
module Tables {

  /** `accounts`: a client-held key, the absolute expiry of the subscription
      (`account_time_left`, epoch seconds) and the flock quota. */
  datatype Account = Account(id: nat, key: string, timeLeft: int, flocksMax: int)

  /** `tokens`: a session token, its account, the channel it was issued for
      (`token_web`: true for the browser cookie, false for the `x-token`
      header) and its absolute expiry. */
  datatype Token = Token(value: string, account: nat, web: bool, expires: int)

  /** `networks`: a flock, identified outside by its 16-hex-digit token. */
  datatype Network = Network(id: nat, token: string, owner: nat, ambryUpdate: int)

  /** `devices`: an enrolled device of a flock; `kek` is its key slot
      (`device_kek`, 0 while unapproved), `cathedralId` its 8-hex-digit device
      id and `cathedralKey` its 64-hex-digit secret. */
  datatype Device = Device(
    id: nat,
    kek: nat,
    cathedralId: string,
    network: nat,
    cathedralKey: string,
    account: nat,
    networkToken: string,
    pubkey: string,
    approved: bool,
    created: int,
    bwLimit: int)

  /** `xflocks`: one direction of a trust link between two flocks. */
  datatype Xflock = Xflock(id: nat, src: nat, srcToken: string, dst: nat, dstToken: string, owner: nat)

  /** `cathedrals`: a relay endpoint handed to clients. */
  datatype Cathedral = Cathedral(ip: string, port: nat, descr: string)

  /** Column defaults of the schema, which the statements rely on but do not
      set themselves. */
  datatype Defaults = Defaults(
    accountTimeLeft: int,
    accountFlocksMax: int,
    tokenExpires: int,
    networkAmbryUpdate: int,
    deviceBwLimit: int)

  /** The whole database; the `next…` fields are the serial sequences that
      number new rows. */
  datatype Db = Db(
    accounts: seq<Account>,
    tokens: seq<Token>,
    networks: seq<Network>,
    devices: seq<Device>,
    xflocks: seq<Xflock>,
    cathedrals: seq<Cathedral>,
    defaults: Defaults,
    nextAccount: nat,
    nextNetwork: nat,
    nextDevice: nat,
    nextXflock: nat)

  /** A statement that changes the database and returns rows (`RETURNING`). */
  datatype Effect<R> = Effect(db: Db, rows: seq<R>)
}
