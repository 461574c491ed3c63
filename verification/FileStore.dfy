/** The file-backed store: decode the file, run the callback on a snapshot, encode again, and replace
    the file if that changed anything. It refines the in-memory transaction. */
module FileStore {
  import opened Session
  import opened FileWrite
  import DeviceFlow

  const NULL := "null"
  const MAX_FILE: nat := 0x10_0000
  const RESERVED_NAMES := {"auth", "pendingDeviceAuth", "deviceAuthGeneration"}

  /** The three keys this SDK knows, and any other a newer program may have written. */
  datatype Key = AUTH | PENDING | GENERATION | Other(name: string)

  /** The top-level object: each key with the text of its JSON value. */
  type Raw = map<Key, string>

  /** The JSON library. `repaired` is the string that an encoding keeps (invalid UTF-8 is replaced),
      `json` says which texts are JSON values, and `compact` is the rewriting an encoder does to a
      value it copies. */
  datatype Codec = Codec(
    decode: Bytes -> Option<Raw>,
    encode: Raw -> Option<Bytes>,
    compact: string -> string,
    json: string -> bool,
    repaired: string -> string,
    isNull: string -> bool,
    readAuth: string -> Option<AuthTokens>,
    printAuth: AuthTokens -> string,
    readPending: string -> Option<Pending>,
    printPending: Pending -> string,
    readGeneration: string -> Option<uint64>,
    printGeneration: uint64 -> string)
  {
    function RepairedAuth(a: AuthTokens): AuthTokens {
      a.(access := repaired(a.access), refresh := repaired(a.refresh), tokenType := repaired(a.tokenType))
    }

    function RepairedPending(p: Pending): Pending {
      p.(deviceCode := repaired(p.deviceCode), verificationUrl := repaired(p.verificationUrl), phrase := repaired(p.phrase))
    }

    function RepairedState(s: State): State {
      State(
        if s.auth.Some? then Some(RepairedAuth(s.auth.value)) else None,
        if s.pending.Some? then Some(RepairedPending(s.pending.value)) else None,
        s.generation)
    }

    /** Every value is JSON, every key survives an encoding, and the known keys go by their own names. */
    ghost predicate Clean(m: Raw) {
      forall k <- m :: json(m[k]) && (k.Other? ==> repaired(k.name) == k.name && k.name !in RESERVED_NAMES)
    }

    ghost predicate DecodeLaw(b: Bytes) {
      decode(b).Some? ==> Clean(decode(b).value)
    }

    ghost predicate EncodeLaw(m: Raw) {
      Clean(m) ==> encode(m).Some? && decode(encode(m).value) == Some(map k | k in m :: compact(m[k]))
    }

    ghost predicate CompactLaw(v: string) {
      json(v) ==>
        && isNull(compact(v)) == isNull(v) && readAuth(compact(v)) == readAuth(v)
        && readPending(compact(v)) == readPending(v) && readGeneration(compact(v)) == readGeneration(v)
    }

    ghost predicate RepairLaw(s: string) {
      repaired(s) == "" ==> s == ""
    }

    ghost predicate AuthLaw(a: AuthTokens) {
      json(printAuth(a)) && !isNull(printAuth(a)) && readAuth(printAuth(a)) == Some(RepairedAuth(a))
    }

    ghost predicate PendingLaw(p: Pending) {
      json(printPending(p)) && !isNull(printPending(p)) && readPending(printPending(p)) == Some(RepairedPending(p))
    }

    ghost predicate GenerationLaw(g: uint64) {
      json(printGeneration(g)) && !isNull(printGeneration(g)) && readGeneration(printGeneration(g)) == Some(g)
    }

    /** The shortest object that is ever written is small enough to be read. */
    ghost predicate SizeLaw() {
      var data := encode(map[AUTH := NULL, PENDING := NULL, GENERATION := printGeneration(1)]);
      data.Some? ==> |data.value| <= MAX_FILE
    }

    /** What the model relies on in the library. */
    ghost predicate Lawful() {
      && (forall b: Bytes :: DecodeLaw(b)) && (forall m: Raw :: EncodeLaw(m)) && (forall v: string :: CompactLaw(v))
      && (forall a: AuthTokens :: AuthLaw(a)) && (forall p: Pending :: PendingLaw(p))
      && (forall g: uint64 :: GenerationLaw(g)) && (forall s: string :: RepairLaw(s)) && SizeLaw()
      && json(NULL) && isNull(NULL) && json("0") && !isNull("0") && readGeneration("0") == Some(0)
    }
  }

  // ---------------------------------------------------------------- decoding

  function AuthOf(c: Codec, raw: Raw): Result<Option<AuthTokens>> {
    if AUTH !in raw || c.isNull(raw[AUTH]) then Ok(None)
    else match c.readAuth(raw[AUTH])
      case None => Err(Malformed)
      case Some(a) => if ValidAuth(a) then Ok(Some(a)) else Err(Malformed)
  }

  function PendingOf(c: Codec, raw: Raw): Result<Option<Pending>> {
    if PENDING !in raw || c.isNull(raw[PENDING]) then Ok(None)
    else match c.readPending(raw[PENDING])
      case None => Err(Malformed)
      case Some(p) => if ValidPending(p) then Ok(Some(p)) else Err(Malformed)
  }

  function GenerationOf(c: Codec, raw: Raw): Result<uint64> {
    if GENERATION !in raw || c.isNull(raw[GENERATION]) then Ok(0)
    else match c.readGeneration(raw[GENERATION])
      case None => Err(Malformed)
      case Some(g) => Ok(g)
  }

  function Snapshot(c: Codec, raw: Raw): Result<State> {
    match AuthOf(c, raw)
    case Err(e) => Err(e)
    case Ok(auth) =>
      match PendingOf(c, raw)
      case Err(e) => Err(e)
      case Ok(pending) =>
        match GenerationOf(c, raw)
        case Err(e) => Err(e)
        case Ok(generation) => Ok(State(auth, pending, generation))
  }

  function WithDefault(raw: Raw, key: Key, value: string): Raw {
    if key in raw then raw else raw[key := value]
  }

  function WithDefaults(raw: Raw): Raw {
    WithDefault(WithDefault(WithDefault(raw, AUTH, NULL), PENDING, NULL), GENERATION, "0")
  }

  const NEW_STATE: Raw := map[AUTH := NULL, PENDING := NULL, GENERATION := "0"]

  function Decode(c: Codec, data: Bytes): Result<Raw> {
    match c.decode(data)
    case None => Err(Malformed)
    case Some(raw) =>
      match Snapshot(c, raw)
      case Err(e) => Err(e)
      case Ok(_) => Ok(WithDefaults(raw))
  }

  function ReadState(c: Codec, file: Option<Bytes>): Result<Raw> {
    match file
    case None => Ok(NEW_STATE)
    case Some(data) => if |data| > MAX_FILE then Err(TooLarge) else Decode(c, data)
  }

  /** The abstraction: what the file says the stored state is. */
  function Stored(c: Codec, file: Option<Bytes>): Result<State> {
    match ReadState(c, file)
    case Err(e) => Err(e)
    case Ok(raw) => Snapshot(c, raw)
  }

  // ---------------------------------------------------------------- encoding

  ghost predicate Checked(s: State) {
    (s.auth.Some? ==> ValidAuth(s.auth.value)) && (s.pending.Some? ==> ValidPending(s.pending.value))
  }

  /** `s` has been prepared. */
  function Replaced(c: Codec, raw: Raw, s: State): Raw {
    raw[AUTH := if s.auth.Some? then c.printAuth(s.auth.value) else NULL]
       [PENDING := if s.pending.Some? then c.printPending(s.pending.value) else NULL]
       [GENERATION := c.printGeneration(s.generation)]
  }

  /** A store that went through the file keeps its state, except that invalid UTF-8 is repaired. */
  lemma SnapshotOfReplaced(c: Codec, raw: Raw, s: State)
    requires c.Lawful() && Checked(s)
    ensures Snapshot(c, Replaced(c, raw, s)) == Ok(c.RepairedState(s))
  {
    if s.auth.Some? { RepairedAuthIsValid(c, s.auth.value); }
    if s.pending.Some? { RepairedPendingIsValid(c, s.pending.value); }
    assert c.GenerationLaw(s.generation);
    var r := Replaced(c, raw, s);
    assert AuthOf(c, r) == Ok(c.RepairedState(s).auth);
    assert PendingOf(c, r) == Ok(c.RepairedState(s).pending);
  }

  /** Text that is valid UTF-8 comes through unchanged, and so does every number. */
  lemma TextSurvives(c: Codec, s: State)
    requires s.auth.Some? ==>
      var AuthTokens(access, refresh, _, tokenType, _) := s.auth.value;
      c.repaired(access) == access && c.repaired(refresh) == refresh && c.repaired(tokenType) == tokenType
    requires s.pending.Some? ==>
      var Pending(code, _, _, url, phrase) := s.pending.value;
      c.repaired(code) == code && c.repaired(url) == url && c.repaired(phrase) == phrase
    ensures c.RepairedState(s) == s
  {
  }

  lemma RepairedAuthIsValid(c: Codec, a: AuthTokens)
    requires c.Lawful() && ValidAuth(a)
    ensures ValidAuth(c.RepairedAuth(a)) && c.AuthLaw(a)
  {
    assert c.RepairLaw(a.access) && c.RepairLaw(a.refresh) && c.RepairLaw(a.tokenType);
  }

  lemma RepairedPendingIsValid(c: Codec, p: Pending)
    requires c.Lawful() && ValidPending(p)
    ensures ValidPending(c.RepairedPending(p)) && c.PendingLaw(p)
  {
    assert c.RepairLaw(p.deviceCode) && c.RepairLaw(p.verificationUrl) && c.RepairLaw(p.phrase);
  }

  lemma ReplacedIsClean(c: Codec, raw: Raw, s: State)
    requires c.Lawful() && c.Clean(raw)
    ensures c.Clean(Replaced(c, raw, s))
  {
    if s.auth.Some? { assert c.AuthLaw(s.auth.value); }
    if s.pending.Some? { assert c.PendingLaw(s.pending.value); }
    assert c.GenerationLaw(s.generation);
  }

  lemma SnapshotOfDefaults(c: Codec, raw: Raw)
    requires c.Lawful()
    ensures Snapshot(c, WithDefaults(raw)) == Snapshot(c, raw)
    ensures c.Clean(raw) ==> c.Clean(WithDefaults(raw))
    ensures {AUTH, PENDING, GENERATION} <= WithDefaults(raw).Keys
    ensures forall k <- raw :: k in WithDefaults(raw) && WithDefaults(raw)[k] == raw[k]
  {
    var r := WithDefaults(raw);
    assert AuthOf(c, r) == AuthOf(c, raw);
    assert PendingOf(c, r) == PendingOf(c, raw);
    assert GenerationOf(c, r) == GenerationOf(c, raw);
  }

  function Compacted(c: Codec, raw: Raw): Raw {
    map k | k in raw :: c.compact(raw[k])
  }

  /** Compacting the values, as every write does, does not change what they mean. */
  lemma SnapshotOfCompact(c: Codec, raw: Raw)
    requires c.Lawful() && c.Clean(raw)
    ensures Snapshot(c, Compacted(c, raw)) == Snapshot(c, raw)
  {
    var r := Compacted(c, raw);
    assert forall k <- raw :: c.CompactLaw(raw[k]);
    assert AuthOf(c, r) == AuthOf(c, raw);
    assert PendingOf(c, r) == PendingOf(c, raw);
    assert GenerationOf(c, r) == GenerationOf(c, raw);
  }

  /** What is written is accepted again, with the same snapshot, unless it exceeds what may be read. */
  lemma WrittenFileReadsBack(c: Codec, raw: Raw, data: Bytes)
    requires c.Lawful() && c.Clean(raw) && c.encode(raw) == Some(data) && Snapshot(c, raw).Ok?
    ensures Stored(c, Some(data)) == if |data| <= MAX_FILE then Snapshot(c, raw) else Err(TooLarge)
  {
    assert c.EncodeLaw(raw);
    SnapshotOfCompact(c, raw);
    SnapshotOfDefaults(c, Compacted(c, raw));
  }

  /** Equal encodings mean equal snapshots: skipping the write then loses nothing. */
  lemma EqualEncodingsEqualSnapshots(c: Codec, raw1: Raw, raw2: Raw)
    requires c.Lawful() && c.Clean(raw1) && c.Clean(raw2)
    requires c.encode(raw1) == c.encode(raw2)
    ensures Snapshot(c, raw1) == Snapshot(c, raw2)
  {
    assert c.EncodeLaw(raw1) && c.EncodeLaw(raw2);
    SnapshotOfCompact(c, raw1);
    SnapshotOfCompact(c, raw2);
  }

  lemma ReadStateIsClean(c: Codec, file: Option<Bytes>)
    requires c.Lawful() && ReadState(c, file).Ok?
    ensures c.Clean(ReadState(c, file).value) && Snapshot(c, ReadState(c, file).value).Ok?
  {
    if file.Some? {
      assert c.DecodeLaw(file.value);
      SnapshotOfDefaults(c, c.decode(file.value).value);
    }
  }

  // ---------------------------------------------------------------- the store

  predicate TooBig(file: Option<Bytes>) { file.Some? && |file.value| > MAX_FILE }

  /** The file holds the state `s` with its strings repaired, or it holds too much to be read at all. */
  ghost predicate Holds(c: Codec, file: Option<Bytes>, s: State) {
    Stored(c, file) == if TooBig(file) then Err(TooLarge) else Ok(c.RepairedState(s))
  }

  /** Keys this SDK does not know keep their values, up to the encoder's compaction. */
  ghost predicate UnknownKeysKept(c: Codec, before: Option<Bytes>, after: Option<Bytes>) {
    after == before ||
    (after.Some? && c.decode(after.value).Some? &&
     forall name: string ::
       var was := if before.Some? && c.decode(before.value).Some? then c.decode(before.value).value else map[];
       var now := c.decode(after.value).value;
       && (Other(name) in now <==> Other(name) in was)
       && (Other(name) in now ==> now[Other(name)] == c.compact(was[Other(name)])))
  }

  /** A file is read only if it is small enough and its session and flow are complete. */
  lemma LoadedStateIsChecked(c: Codec, file: Option<Bytes>)
    requires c.Lawful() && Stored(c, file).Ok?
    ensures Checked(Stored(c, file).value)
    ensures file.Some? ==> |file.value| <= MAX_FILE && c.decode(file.value).Some?
    ensures file.None? ==> Stored(c, file) == Ok(EMPTY)
  {
  }

  /** When a file can be read and what it then says, record by record: an absent or null record is none,
      and one that cannot be parsed or lacks a field makes the whole file malformed. */
  lemma ReadingIsExact(c: Codec, data: Bytes)
    requires c.Lawful() && |data| <= 1_048_576 && c.decode(data).Some?
    ensures var raw := c.decode(data).value;
            var noAuth, noFlow, noGeneration := Absent(c, raw, AUTH), Absent(c, raw, PENDING), Absent(c, raw, GENERATION);
            var authOk := noAuth || (c.readAuth(raw[AUTH]).Some? &&
              var AuthTokens(access, refresh, expiresIn, tokenType, expiresAt) := c.readAuth(raw[AUTH]).value;
              access != "" && refresh != "" && tokenType != "" && expiresIn > 0 && expiresAt >= 0);
            var flowOk := noFlow || (c.readPending(raw[PENDING]).Some? &&
              var Pending(code, interval, expiresAt, url, phrase) := c.readPending(raw[PENDING]).value;
              code != "" && interval > 0 && expiresAt > 0 && url != "" && phrase != "");
            var generationOk := noGeneration || c.readGeneration(raw[GENERATION]).Some?;
      Stored(c, Some(data)) ==
        if authOk && flowOk && generationOk then
          Ok(State(if noAuth then None else c.readAuth(raw[AUTH]),
                   if noFlow then None else c.readPending(raw[PENDING]),
                   if noGeneration then 0 else c.readGeneration(raw[GENERATION]).value))
        else Err(Malformed)
  {
    SnapshotOfDefaults(c, c.decode(data).value);
  }

  predicate Absent(c: Codec, raw: Raw, key: Key) { key !in raw || c.isNull(raw[key]) }

  /** Neither too large a file nor one that is not JSON can be read. */
  lemma UnreadableFiles(c: Codec, data: Bytes)
    ensures |data| > 1_048_576 ==> Stored(c, Some(data)) == Err(TooLarge)
    ensures |data| <= 1_048_576 && c.decode(data).None? ==> Stored(c, Some(data)) == Err(Malformed)
  {
  }

  lemma PreparedIsChecked(s: State, now: int64)
    requires PrepareSnapshot(s, now).Ok?
    ensures Checked(PrepareSnapshot(s, now).value)
  {
    if s.auth.Some? && ValidAuth(s.auth.value) && s.auth.value.expiresAt == 0 { PrepareAuthExact(s.auth.value, now); }
  }

  lemma NewFileHolds(c: Codec, before: Option<Bytes>, raw: Raw, s: State)
    requires c.Lawful() && ReadState(c, before) == Ok(raw) && Checked(s)
    ensures c.encode(Replaced(c, raw, s)).Some?
    ensures Holds(c, c.encode(Replaced(c, raw, s)), s)
    ensures UnknownKeysKept(c, before, c.encode(Replaced(c, raw, s)))
  {
    ReadStateIsClean(c, before);
    ReplacedIsClean(c, raw, s);
    assert c.EncodeLaw(Replaced(c, raw, s));
    SnapshotOfReplaced(c, raw, s);
    WrittenFileReadsBack(c, Replaced(c, raw, s), c.encode(Replaced(c, raw, s)).value);
    UnknownKeysSurvive(c, before, raw, s, c.encode(Replaced(c, raw, s)).value);
  }

  lemma UnknownKeysSurvive(c: Codec, before: Option<Bytes>, raw: Raw, s: State, data: Bytes)
    requires ReadState(c, before) == Ok(raw)
    requires c.decode(data) == Some(Compacted(c, Replaced(c, raw, s)))
    ensures UnknownKeysKept(c, before, Some(data))
  {
  }

  lemma SkippedWriteHolds(c: Codec, file: Option<Bytes>, raw: Raw, s: State)
    requires c.Lawful() && ReadState(c, file) == Ok(raw) && Checked(s)
    requires c.encode(raw) == c.encode(Replaced(c, raw, s))
    ensures Holds(c, file, s)
  {
    ReadStateIsClean(c, file);
    ReplacedIsClean(c, raw, s);
    EqualEncodingsEqualSnapshots(c, raw, Replaced(c, raw, s));
    SnapshotOfReplaced(c, raw, s);
  }

  predicate Undisturbed(plan: Plan) { plan.fails == {} && plan.cancelAt >= CHECKPOINTS }

  /** What a store that was cleared says: an absent file stays absent. */
  function ClearedFile(file: Option<Bytes>): State {
    if file.Some? then DeviceFlow.FILE_CLEARED else EMPTY
  }

  lemma ClearedReadsBack(c: Codec)
    requires c.Lawful()
    ensures var written := c.encode(Replaced(c, map[], DeviceFlow.FILE_CLEARED));
            written.Some? && Stored(c, written) == Ok(DeviceFlow.FILE_CLEARED)
  {
    var cleared := Replaced(c, map[], DeviceFlow.FILE_CLEARED);
    NewFileHolds(c, None, NEW_STATE, DeviceFlow.FILE_CLEARED);
    assert cleared == Replaced(c, NEW_STATE, DeviceFlow.FILE_CLEARED);
    assert cleared == map[AUTH := NULL, PENDING := NULL, GENERATION := c.printGeneration(1)];
  }

  class FileStorage {
    const codec: Codec
    var disk: Disk

    constructor (codec: Codec, disk: Disk)
      ensures this.codec == codec && this.disk == disk
    {
      this.codec := codec;
      this.disk := disk;
    }

    /** `locked`: the gate and the companion lock were acquired. */
    method Load(locked: bool) returns (r: Result<State>)
      ensures r == if locked then Stored(codec, disk.dest) else Err(Cancelled)
    {
      if !locked { return Err(Cancelled); }
      var raw := ReadState(codec, disk.dest);
      if raw.Err? { return Err(raw.error); }
      r := Snapshot(codec, raw.value);
    }

    /** Refines the in-memory transaction under `Stored`, for every plan of faults. */
    method Transact<R>(update: Update<R>, locked: bool, lateCancelled: bool, now: int64, plan: Plan) returns (r: Result<R>)
      requires codec.Lawful() && disk.temp.None?
      modifies this`disk
      ensures disk.temp.None?
      ensures !locked || Stored(codec, old(disk.dest)).Err? ==> r.Err? && disk == old(disk)
      ensures UnknownKeysKept(codec, old(disk.dest), disk.dest)
      ensures locked && Stored(codec, old(disk.dest)).Ok? ==>
        var o := Session.Transact(Stored(codec, old(disk.dest)).value, update, lateCancelled, now);
        && (o.result.Err? ==> r == o.result && disk == old(disk))
        && (r.Ok? ==> r == o.result && Holds(codec, disk.dest, o.state))
        && (o.result.Ok? && r.Err? ==>
              disk.dest == old(disk.dest) || (SyncDirectory in plan.fails && Holds(codec, disk.dest, o.state)))
        && (o.result.Ok? && Undisturbed(plan) ==> r.Ok?)
        && (r.Ok? && disk != old(disk) ==> Undisturbed(plan))
    {
      if !locked { return Err(Cancelled); }
      var raw := ReadState(codec, disk.dest);
      if raw.Err? { return Err(raw.error); }
      ReadStateIsClean(codec, disk.dest);
      var snapshot := Snapshot(codec, raw.value);
      var edit := update(snapshot.value);
      if edit.Err? { return Err(edit.error); }
      if lateCancelled { return Err(Cancelled); }
      var (edited, captured) := edit.value;
      assert codec.EncodeLaw(raw.value);
      var before := codec.encode(raw.value);
      if before.None? { return Err(Error.Storage); }
      var prepared := PrepareSnapshot(edited, now);
      if prepared.Err? { return Err(prepared.error); }
      var replaced := Replaced(codec, raw.value, prepared.value);
      var after := codec.encode(replaced);
      PreparedIsChecked(edited, now);
      NewFileHolds(codec, disk.dest, raw.value, prepared.value);
      if after.None? { return Err(Error.Storage); }
      if before == after {
        SkippedWriteHolds(codec, disk.dest, raw.value, prepared.value);
        return Ok(captured);
      }
      var outcome, trace;
      outcome, disk, trace := WriteStorageState(disk, after.value, plan);
      match outcome
      case Written => r := Ok(captured);
      case WriteCancelled => r := Err(Cancelled);
      case WriteFailed(_) => r := Err(Error.Storage);
    }

    /** Every key goes, the generation with them, and then the generation is bumped. */
    method Clear(locked: bool, plan: Plan) returns (r: Result<()>)
      requires codec.Lawful() && disk.temp.None?
      modifies this`disk
      ensures disk.temp.None?
      ensures !locked || ReadState(codec, old(disk.dest)).Err? || old(disk.dest).None? ==> disk == old(disk)
      ensures r.Ok? <==> locked && (old(disk.dest).Some? ==> ReadState(codec, old(disk.dest)).Ok? && Undisturbed(plan))
      ensures r.Ok? || disk.dest != old(disk.dest) ==> Stored(codec, disk.dest) == Ok(ClearedFile(old(disk.dest)))
      ensures r.Err? ==> disk.dest == old(disk.dest) || SyncDirectory in plan.fails
    {
      if !locked { return Err(Cancelled); }
      if disk.dest.None? { return Ok(()); }
      var raw := ReadState(codec, disk.dest);
      if raw.Err? { return Err(raw.error); }
      var cleared := Replaced(codec, map[], State(None, None, NextGeneration(0)));
      ClearedReadsBack(codec);
      var data := codec.encode(cleared);
      if data.None? { return Err(Error.Storage); }
      var outcome, trace;
      outcome, disk, trace := WriteStorageState(disk, data.value, plan);
      match outcome
      case Written => r := Ok(());
      case WriteCancelled => r := Err(Cancelled);
      case WriteFailed(_) => r := Err(Error.Storage);
    }
  }

  // ---------------------------------------------------------------- where clearing a file differs

  /** A cleared file and a cleared memory store agree exactly when the generation was 0 or the largest. */
  lemma ClearAgreesWithMemory(file: Bytes, s: State)
    ensures ClearedFile(Some(file)) == DeviceFlow.Cleared(s) <==> s.generation == 0 || s.generation == MAX_UINT64
  {
  }

  /** An initiation under way survives a clear of the file exactly if the `n` bumps since then lead
      from 1 to its generation. It survives a clear of memory that came after `m` bumps exactly if
      the bumps since its reservation make full cycles. The session must agree in both cases. */
  lemma ClearSupersedes(r: DeviceFlow.Reservation, pending: Pending, s: State, m: nat, n: nat, now: int64)
    requires ValidPending(pending) && r.generation >= 1 && Prepared(s)
    ensures var o := Session.Transact(s, DeviceFlow.CommitUpdate(r, pending), false, now);
      && (s.generation == DeviceFlow.Advance(ClearedFile(Some([])).generation, n) ==>
            (o.result.Ok? <==> s.auth == r.previous && DeviceFlow.Residue(n) == r.generation - 1))
      && (s.generation == DeviceFlow.Advance(NextGeneration(DeviceFlow.Advance(r.generation, m)), n) ==>
            (o.result.Ok? <==> s.auth == r.previous && DeviceFlow.Residue(m + 1 + n) == 0))
  {
    CommitSucceeds(r, pending, s, now);
    DeviceFlow.AdvanceFromOne(n);
    DeviceFlow.AdvanceSum(r.generation, m + 1, n);
    DeviceFlow.GenerationReturns(r.generation, m + 1 + n);
  }

  lemma CommitSucceeds(r: DeviceFlow.Reservation, pending: Pending, s: State, now: int64)
    requires ValidPending(pending) && Prepared(s)
    ensures Session.Transact(s, DeviceFlow.CommitUpdate(r, pending), false, now).result.Ok?
            <==> s.generation == r.generation && s.auth == r.previous
  {
    if s.generation == r.generation && s.auth == r.previous {
      TransactStores(s, DeviceFlow.CommitUpdate(r, pending), now);
    }
  }
}
