/** Publishing a commitment at most once. Any number of runs share one file system and
    interleave step by step; a run may fail at any point, and every answer from the network
    is arbitrary. Files are only ever created where none is, which is what O_EXCL gives.
 */
module Publication {
  import opened Wrappers
  import opened Base58
  import opened Wire

  const MAX_FEE := 10000
  const LARGEST := 0x7fff_ffff_ffff_ffff

  type Path = string

  function PendingPath(output: Path): Path {
    output + ".pending.json"
  }

  /** The signing scheme and the memo program. */
  datatype Setup = Setup(ed: Ed25519, program: Bytes)

  ghost predicate Sound(e: Setup) {
    Correct(e.ed) && IsBytes(e.program) && |e.program| == 32
  }

  /** What one run was asked to publish: the bundle's commitment and expected signer, the
      operator's key, and where the receipt goes. */
  datatype Job = Job(commitment: Bytes, expected: string, secret: Bytes, output: Path)

  type Jobs = nat -> Job

  // ---------------------------------------------------------------- files, calls, progress

  datatype Note = Note(commitment: Bytes, signer: string, signature: string, lastValid: int)

  datatype Receipt = Receipt(commitment: Bytes, signature: string, signer: string,
                             slot: int, blockTime: Option<int>, fee: int)

  /** A file a run created is torn until its contents are synced. */
  datatype Content = Torn | Pending(note: Note) | Published(receipt: Receipt) | Foreign

  datatype File = File(owner: Option<nat>, content: Content)

  datatype Block = Block(hash: string, lastValid: int)

  datatype Plan = Plan(block: Block, built: Built, fee: int, balance: int)

  /** A transaction the network returned for a signature. */
  datatype Landed = Landed(legacy: bool, failed: bool, wire: Base64, slot: int, blockTime: Option<int>, fee: int)

  /** Everything the final verification read: the genesis check, the transaction, and the
      slot of a finalized, error-free status. */
  datatype Fetched = Fetched(devnet: bool, landed: Option<Landed>, finalizedSlot: Option<int>)

  datatype Action = Sent(plan: Plan) | Confirmed(fetched: Fetched)

  datatype Entry = Entry(run: nat, action: Action)

  datatype Stage =
    | Begun | Keyed | Clear | OnDevnet
    | Assembled(block: Block, built: Built)
    | Priced(block: Block, built: Built, fee: int)
    | Funded(plan: Plan) | Opened(plan: Plan) | Saved(plan: Plan)
    | Submitted(plan: Plan) | Polling(plan: Plan) | Finality(plan: Plan)
    | Verified(plan: Plan, receipt: Receipt) | Opening(plan: Plan, receipt: Receipt)
    | Done(plan: Plan, receipt: Receipt)
    | Stopped

  datatype World = World(files: map<Path, File>, log: seq<Entry>, stages: map<nat, Stage>)

  function StageOf(w: World, i: nat): Stage {
    if i in w.stages then w.stages[i] else Begun
  }

  /** A signature's status as polled. */
  datatype Status = Malformed | Missing | Failing | Unfinalized | Finalized

  /** One step of one run with the answer it got, a run dying, or another program creating a file. */
  datatype Event =
    | CheckOutput(run: nat) | CheckPending(run: nat) | Genesis(run: nat, devnet: bool)
    | Latest(run: nat, block: Option<Block>)
    | Fee(run: nat, fee: Option<int>) | Balance(run: nat, balance: Option<int>)
    | OpenPending(run: nat) | SavePending(run: nat)
    | Submit(run: nat, devnet: bool) | Answer(run: nat, signature: Option<string>)
    | Poll(run: nat, status: Status) | Fetch(run: nat, fetched: Fetched)
    | OpenReceipt(run: nat) | SaveReceipt(run: nat)
    | Fail(run: nat) | Elsewhere(path: Path)

  // ---------------------------------------------------------------- one step

  function NoteOf(e: Setup, job: Job, plan: Plan): Note {
    Note(job.commitment, job.expected, plan.built.signature, plan.block.lastValid)
  }

  ghost predicate Gate(e: Setup, tx: Base64) {
    tx.Encoded? && IsBytes(tx.bytes) && MaySend(e.ed, e.program, tx).Ok?
  }

  predicate IsAmount(n: int, most: int) {
    0 <= n <= most
  }

  /** The final check: payload and signature locally, finalized inclusion from the network. */
  function VerifyFinalized(e: Setup, commitment: Bytes, signature: string, signer: string,
                           f: Fetched): Option<Receipt> {
    if !f.devnet || f.landed.None? then None
    else
      var t := f.landed.value;
      if !t.legacy || t.failed then None
      else if Verify(e.ed, e.program, t.wire, commitment, signature, signer).Err? then None
      else if !IsAmount(t.slot, LARGEST) || !IsAmount(t.fee, MAX_FEE)
              || (t.blockTime.Some? && !IsAmount(t.blockTime.value, LARGEST)) then None
      else if f.finalizedSlot != Some(t.slot) then None
      else Some(Receipt(commitment, signature, signer, t.slot, t.blockTime, t.fee))
  }

  ghost predicate OwnsKey(e: Setup, job: Job) {
    IsBytes(e.ed.publicOf(job.secret)) && Encode(e.ed.publicOf(job.secret)) == job.expected
  }

  function At(w: World, i: nat, stage: Stage): World {
    w.(stages := w.stages[i := stage])
  }

  function Put(w: World, path: Path, i: nat, content: Content): World {
    w.(files := w.files[path := File(Some(i), content)])
  }

  function Logged(w: World, i: nat, action: Action): World {
    w.(log := w.log + [Entry(i, action)])
  }

  ghost function Next(e: Setup, jobs: Jobs, w: World, event: Event): World
    requires Sound(e)
  {
    if event.Elsewhere? then
      if event.path in w.files then w else w.(files := w.files[event.path := File(None, Foreign)])
    else
      var i, job, stage := event.run, jobs(event.run), StageOf(w, event.run);
      var pending := PendingPath(job.output);
      var stopped := At(w, i, Stopped);
      match event
      case CheckOutput(_) =>
        if !stage.Begun? then w
        else if !OwnsKey(e, job) || job.output in w.files then stopped
        else At(w, i, Keyed)
      case CheckPending(_) =>
        if !stage.Keyed? then w else if pending in w.files then stopped else At(w, i, Clear)
      case Genesis(_, devnet) =>
        if !stage.Clear? then w else if devnet then At(w, i, OnDevnet) else stopped
      case Latest(_, block) =>
        if !stage.OnDevnet? then w
        else if block.None? || !IsAmount(block.value.lastValid, LARGEST) then stopped
        else
          var built := Build(e.ed, e.program, job.commitment, job.secret, block.value.hash);
          if built.Err? then stopped else At(w, i, Assembled(block.value, built.value))
      case Fee(_, fee) =>
        if !stage.Assembled? then w
        else if fee.None? || !(0 < fee.value <= MAX_FEE) then stopped
        else At(w, i, Priced(stage.block, stage.built, fee.value))
      case Balance(_, balance) =>
        if !stage.Priced? then w
        else if balance.None? || balance.value < stage.fee then stopped
        else At(w, i, Funded(Plan(stage.block, stage.built, stage.fee, balance.value)))
      case OpenPending(_) =>
        if !stage.Funded? then w
        else if pending in w.files then stopped
        else At(Put(w, pending, i, Torn), i, Opened(stage.plan))
      case SavePending(_) =>
        if !stage.Opened? then w
        else At(Put(w, pending, i, Pending(NoteOf(e, job, stage.plan))), i, Saved(stage.plan))
      case Submit(_, devnet) =>
        if !stage.Saved? then w
        else if !Gate(e, stage.plan.built.transaction) || !devnet then stopped
        else At(Logged(w, i, Sent(stage.plan)), i, Submitted(stage.plan))
      case Answer(_, signature) =>
        if !stage.Submitted? then w
        else if signature != Some(stage.plan.built.signature) then stopped
        else At(w, i, Polling(stage.plan))
      case Poll(_, status) =>
        if !stage.Polling? then w
        else if status.Malformed? || status.Failing? then stopped
        else if status.Finalized? then At(w, i, Finality(stage.plan))
        else w
      case Fetch(_, fetched) =>
        if !stage.Finality? then w
        else
          var receipt := VerifyFinalized(e, job.commitment, stage.plan.built.signature, job.expected, fetched);
          if receipt.None? then stopped
          else At(Logged(w, i, Confirmed(fetched)), i, Verified(stage.plan, receipt.value))
      case OpenReceipt(_) =>
        if !stage.Verified? then w
        else if job.output in w.files then stopped
        else At(Put(w, job.output, i, Torn), i, Opening(stage.plan, stage.receipt))
      case SaveReceipt(_) =>
        if !stage.Opening? then w
        else At(Put(w, job.output, i, Published(stage.receipt)), i, Done(stage.plan, stage.receipt))
      case Fail(_) => stopped
  }

  ghost function Runs(e: Setup, jobs: Jobs, w: World, events: seq<Event>): World
    requires Sound(e)
  {
    if events == [] then w else Next(e, jobs, Runs(e, jobs, w, events[..|events| - 1]), events[|events| - 1])
  }

  /** Nothing sent, nobody started; whatever files there are belong to no run. */
  ghost predicate Initial(w: World) {
    w.log == [] && w.stages == map[] && forall p :: p in w.files ==> w.files[p] == File(None, Foreign)
  }

  // ---------------------------------------------------------------- the invariant

  /** The guards a transaction passed before anything was written. */
  ghost predicate Guarded(e: Setup, job: Job, plan: Plan)
    requires Sound(e)
  {
    && 0 < plan.fee <= MAX_FEE && plan.balance >= plan.fee
    && OwnsKey(e, job)
    && Build(e.ed, e.program, job.commitment, job.secret, plan.block.hash) == Ok(plan.built)
  }

  ghost predicate Holds(w: World, path: Path, i: nat, content: Content) {
    path in w.files && w.files[path] == File(Some(i), content)
  }

  ghost predicate NothingSent(log: seq<Entry>, i: nat) {
    forall a :: 0 <= a < |log| ==> log[a].run != i
  }

  /** The evidence behind a receipt: the run's one submission, and a fetch that verified. */
  ghost predicate Backed(e: Setup, job: Job, w: World, i: nat, plan: Plan, receipt: Receipt) {
    && Entry(i, Sent(plan)) in w.log
    && exists f :: Entry(i, Confirmed(f)) in w.log
                   && VerifyFinalized(e, job.commitment, plan.built.signature, job.expected, f) == Some(receipt)
  }

  ghost predicate RunOk(e: Setup, jobs: Jobs, w: World, i: nat)
    requires Sound(e)
  {
    var job := jobs(i);
    var pending := PendingPath(job.output);
    match StageOf(w, i)
    case Begun => NothingSent(w.log, i)
    case Keyed => NothingSent(w.log, i) && OwnsKey(e, job)
    case Clear => NothingSent(w.log, i) && OwnsKey(e, job)
    case OnDevnet => NothingSent(w.log, i) && OwnsKey(e, job)
    case Assembled(block, built) =>
      NothingSent(w.log, i) && OwnsKey(e, job)
      && Build(e.ed, e.program, job.commitment, job.secret, block.hash) == Ok(built)
    case Priced(block, built, fee) =>
      && NothingSent(w.log, i) && OwnsKey(e, job) && 0 < fee <= MAX_FEE
      && Build(e.ed, e.program, job.commitment, job.secret, block.hash) == Ok(built)
    case Funded(plan) => NothingSent(w.log, i) && Guarded(e, job, plan)
    case Opened(plan) => NothingSent(w.log, i) && Guarded(e, job, plan) && Holds(w, pending, i, Torn)
    case Saved(plan) => NothingSent(w.log, i) && Guarded(e, job, plan)
      && Holds(w, pending, i, Pending(NoteOf(e, job, plan)))
    case Submitted(plan) => Entry(i, Sent(plan)) in w.log
    case Polling(plan) => Entry(i, Sent(plan)) in w.log
    case Finality(plan) => Entry(i, Sent(plan)) in w.log
    case Verified(plan, receipt) => Backed(e, job, w, i, plan, receipt)
    case Opening(plan, receipt) => Backed(e, job, w, i, plan, receipt) && Holds(w, job.output, i, Torn)
    case Done(plan, receipt) => Backed(e, job, w, i, plan, receipt) && Holds(w, job.output, i, Published(receipt))
    case Stopped => true
  }

  ghost predicate EntryOk(e: Setup, jobs: Jobs, w: World, a: nat)
    requires Sound(e) && a < |w.log|
  {
    var i, job := w.log[a].run, jobs(w.log[a].run);
    w.log[a].action.Sent? ==>
      && Guarded(e, job, w.log[a].action.plan)
      && Holds(w, PendingPath(job.output), i, Pending(NoteOf(e, job, w.log[a].action.plan)))
      && forall b :: 0 <= b < a ==> w.log[b].run != i
  }

  ghost predicate FileOk(e: Setup, jobs: Jobs, w: World, path: Path)
    requires Sound(e) && path in w.files
  {
    var f := w.files[path];
    if f.owner.None? then f.content.Foreign?
    else
      var i, job := f.owner.value, jobs(f.owner.value);
      match f.content
      case Torn =>
        path == PendingPath(job.output)
          || (path == job.output && exists plan, receipt :: Backed(e, job, w, i, plan, receipt))
      case Pending(_) => path == PendingPath(job.output)
      case Published(receipt) => path == job.output && exists plan :: Backed(e, job, w, i, plan, receipt)
      case Foreign => false
  }

  ghost predicate Inv(e: Setup, jobs: Jobs, w: World)
    requires Sound(e)
  {
    && (forall i: nat :: RunOk(e, jobs, w, i))
    && (forall a: nat :: a < |w.log| ==> EntryOk(e, jobs, w, a))
    && (forall p :: p in w.files ==> FileOk(e, jobs, w, p))
  }

  lemma InitialInv(e: Setup, jobs: Jobs, w: World)
    requires Sound(e) && Initial(w)
    ensures Inv(e, jobs, w)
  {
    hide OwnsKey, Guarded, Backed, Sound;
  }

  lemma BackedMore(e: Setup, job: Job, w: World, v: World, i: nat, plan: Plan, receipt: Receipt)
    requires Backed(e, job, w, i, plan, receipt) && forall x :: x in w.log ==> x in v.log
    ensures Backed(e, job, v, i, plan, receipt)
  {
    hide VerifyFinalized;
  }

  // ---------------------------------------------------------------- one step keeps the invariant

  /** What a step of run i leaves alone: other runs, the log so far, and every file except
      one that run itself left torn. */
  ghost predicate Extends(w: World, v: World, i: nat) {
    && (forall j: nat :: j != i ==> StageOf(v, j) == StageOf(w, j))
    && |w.log| <= |v.log| && (forall a :: 0 <= a < |w.log| ==> v.log[a] == w.log[a])
    && (forall a :: |w.log| <= a < |v.log| ==> v.log[a].run == i)
    && forall p :: p in w.files ==> p in v.files && (v.files[p] == w.files[p] || w.files[p] == File(Some(i), Torn))
  }

  lemma OldEntries(w: World, v: World, i: nat)
    requires Extends(w, v, i)
    ensures forall x :: x in w.log ==> x in v.log
  {
    forall x | x in w.log
      ensures x in v.log
    {
      var a :| 0 <= a < |w.log| && w.log[a] == x;
      assert v.log[a] == x;
    }
  }

  lemma KeepsHolding(w: World, v: World, i: nat, path: Path, j: nat, content: Content)
    requires Extends(w, v, i) && Holds(w, path, j, content) && (j != i || !content.Torn?)
    ensures Holds(v, path, j, content)
  {
  }

  lemma OtherRun(e: Setup, jobs: Jobs, w: World, v: World, i: nat, j: nat)
    requires Sound(e) && Extends(w, v, i) && j != i && RunOk(e, jobs, w, j)
    ensures RunOk(e, jobs, v, j)
  {
    hide OwnsKey, Guarded, Sound, NoteOf, Backed, Holds;
    OldEntries(w, v, i);
    var job := jobs(j);
    var stage := StageOf(w, j);
    if stage.Opened? {
      KeepsHolding(w, v, i, PendingPath(job.output), j, Torn);
    } else if stage.Saved? {
      KeepsHolding(w, v, i, PendingPath(job.output), j, Pending(NoteOf(e, job, stage.plan)));
    } else if stage.Verified? || stage.Opening? || stage.Done? {
      BackedMore(e, job, w, v, j, stage.plan, stage.receipt);
      if stage.Opening? {
        KeepsHolding(w, v, i, job.output, j, Torn);
      } else if stage.Done? {
        KeepsHolding(w, v, i, job.output, j, Published(stage.receipt));
      }
    }
  }

  lemma OldEntry(e: Setup, jobs: Jobs, w: World, v: World, i: nat, a: nat)
    requires Sound(e) && Extends(w, v, i) && a < |w.log| && EntryOk(e, jobs, w, a)
    ensures EntryOk(e, jobs, v, a)
  {
    hide OwnsKey, Guarded, Sound, NoteOf, StageOf;
  }

  lemma OldFile(e: Setup, jobs: Jobs, w: World, v: World, i: nat, path: Path)
    requires Sound(e) && Extends(w, v, i)
    requires path in w.files && v.files[path] == w.files[path] && FileOk(e, jobs, w, path)
    ensures FileOk(e, jobs, v, path)
  {
    hide OwnsKey, Guarded, Sound, NoteOf, StageOf, Backed;
    OldEntries(w, v, i);
    var f := w.files[path];
    if f.content.Published? && f.owner.Some? {
      var job := jobs(f.owner.value);
      var plan :| Backed(e, job, w, f.owner.value, plan, f.content.receipt);
      BackedMore(e, job, w, v, f.owner.value, plan, f.content.receipt);
    } else if f.content.Torn? && f.owner.Some? && path != PendingPath(jobs(f.owner.value).output) {
      var job := jobs(f.owner.value);
      var plan, receipt :| Backed(e, job, w, f.owner.value, plan, receipt);
      BackedMore(e, job, w, v, f.owner.value, plan, receipt);
    }
  }

  /** A step keeps the invariant when what it changed is right. */
  lemma StepInv(e: Setup, jobs: Jobs, w: World, v: World, i: nat)
    requires Sound(e) && Inv(e, jobs, w) && Extends(w, v, i)
    requires RunOk(e, jobs, v, i)
    requires forall a: nat :: |w.log| <= a < |v.log| ==> EntryOk(e, jobs, v, a)
    requires forall p :: p in v.files && (p !in w.files || v.files[p] != w.files[p]) ==> FileOk(e, jobs, v, p)
    ensures Inv(e, jobs, v)
  {
    hide RunOk, EntryOk, FileOk, Extends, Sound;
    forall j: nat
      ensures RunOk(e, jobs, v, j)
    {
      if j != i {
        OtherRun(e, jobs, w, v, i, j);
      }
    }
    forall a: nat | a < |v.log|
      ensures EntryOk(e, jobs, v, a)
    {
      if a < |w.log| {
        OldEntry(e, jobs, w, v, i, a);
      }
    }
    forall p | p in v.files
      ensures FileOk(e, jobs, v, p)
    {
      if p in w.files && v.files[p] == w.files[p] {
        OldFile(e, jobs, w, v, i, p);
      }
    }
  }

  /** A step that only moves run i along. */
  lemma QuietInv(e: Setup, jobs: Jobs, w: World, i: nat, stage: Stage)
    requires Sound(e) && Inv(e, jobs, w) && RunOk(e, jobs, At(w, i, stage), i)
    ensures Inv(e, jobs, At(w, i, stage))
  {
    hide RunOk, EntryOk, FileOk, Sound, Inv;
    StepInv(e, jobs, w, At(w, i, stage), i);
  }

  /** A step that creates a file, or finishes one the run left torn. */
  lemma PutInv(e: Setup, jobs: Jobs, w: World, i: nat, path: Path, content: Content, stage: Stage)
    requires Sound(e) && Inv(e, jobs, w) && (path !in w.files || w.files[path] == File(Some(i), Torn))
    requires var v := At(Put(w, path, i, content), i, stage);
             RunOk(e, jobs, v, i) && FileOk(e, jobs, v, path)
    ensures Inv(e, jobs, At(Put(w, path, i, content), i, stage))
  {
    hide RunOk, EntryOk, FileOk, Sound, Inv;
    StepInv(e, jobs, w, At(Put(w, path, i, content), i, stage), i);
  }

  /** A step that logs what run i did. */
  lemma LogInv(e: Setup, jobs: Jobs, w: World, i: nat, action: Action, stage: Stage)
    requires Sound(e) && Inv(e, jobs, w)
    requires var v := At(Logged(w, i, action), i, stage);
             RunOk(e, jobs, v, i) && EntryOk(e, jobs, v, |w.log|)
    ensures Inv(e, jobs, At(Logged(w, i, action), i, stage))
  {
    hide RunOk, EntryOk, FileOk, Sound, Inv;
    StepInv(e, jobs, w, At(Logged(w, i, action), i, stage), i);
  }

  lemma ElsewhereInv(e: Setup, jobs: Jobs, w: World, path: Path)
    requires Sound(e) && Inv(e, jobs, w) && path !in w.files
    ensures Inv(e, jobs, w.(files := w.files[path := File(None, Foreign)]))
  {
    hide RunOk, EntryOk, Sound;
    var v := w.(files := w.files[path := File(None, Foreign)]);
    assert Extends(w, v, 0) && Extends(w, v, 1);
    OtherRun(e, jobs, w, v, 1, 0);
    StepInv(e, jobs, w, v, 0);
  }

  /** The steps before anything is written, and those that only wait. */
  lemma QuietStep(e: Setup, jobs: Jobs, w: World, event: Event)
    requires Sound(e) && Inv(e, jobs, w)
    requires event.CheckOutput? || event.CheckPending? || event.Genesis? || event.Latest?
             || event.Fee? || event.Balance? || event.Answer? || event.Poll?
    requires var v := Next(e, jobs, w, event); v != w && v != At(w, event.run, Stopped)
    ensures Inv(e, jobs, Next(e, jobs, w, event))
  {
    hide OwnsKey, Sound, NoteOf, EntryOk, FileOk, Backed, Holds, Gate, VerifyFinalized, NothingSent, Build, PendingPath;
    var i := event.run;
    assert RunOk(e, jobs, w, i);
    hide Inv;
    var v := Next(e, jobs, w, event);
    assert RunOk(e, jobs, v, i);
    QuietInv(e, jobs, w, i, StageOf(v, i));
  }

  lemma OpenPendingInv(e: Setup, jobs: Jobs, w: World, i: nat)
    requires Sound(e) && Inv(e, jobs, w)
    requires StageOf(w, i).Funded? && PendingPath(jobs(i).output) !in w.files
    ensures Inv(e, jobs, Next(e, jobs, w, OpenPending(i)))
  {
    hide OwnsKey, Sound, NoteOf, EntryOk, Backed, Gate, VerifyFinalized, Guarded;
    assert RunOk(e, jobs, w, i);
    hide Inv;
    PutInv(e, jobs, w, i, PendingPath(jobs(i).output), Torn, Opened(StageOf(w, i).plan));
  }

  lemma SavePendingInv(e: Setup, jobs: Jobs, w: World, i: nat)
    requires Sound(e) && Inv(e, jobs, w) && StageOf(w, i).Opened?
    ensures Inv(e, jobs, Next(e, jobs, w, SavePending(i)))
  {
    hide OwnsKey, Sound, NoteOf, EntryOk, Backed, Gate, VerifyFinalized, Guarded;
    assert RunOk(e, jobs, w, i);
    hide Inv;
    var plan := StageOf(w, i).plan;
    PutInv(e, jobs, w, i, PendingPath(jobs(i).output), Pending(NoteOf(e, jobs(i), plan)), Saved(plan));
  }

  lemma SubmitInv(e: Setup, jobs: Jobs, w: World, i: nat)
    requires Sound(e) && Inv(e, jobs, w) && StageOf(w, i).Saved?
    ensures Inv(e, jobs, At(Logged(w, i, Sent(StageOf(w, i).plan)), i, Submitted(StageOf(w, i).plan)))
  {
    hide OwnsKey, Sound, NoteOf, FileOk, Backed, Gate, VerifyFinalized, Guarded;
    assert RunOk(e, jobs, w, i);
    hide Inv;
    var plan := StageOf(w, i).plan;
    var v := At(Logged(w, i, Sent(plan)), i, Submitted(plan));
    assert v.log[|w.log|] == Entry(i, Sent(plan));
    LogInv(e, jobs, w, i, Sent(plan), Submitted(plan));
  }

  lemma FetchInv(e: Setup, jobs: Jobs, w: World, i: nat, f: Fetched)
    requires Sound(e) && Inv(e, jobs, w) && StageOf(w, i).Finality?
    requires VerifyFinalized(e, jobs(i).commitment, StageOf(w, i).plan.built.signature, jobs(i).expected, f).Some?
    ensures Inv(e, jobs, Next(e, jobs, w, Fetch(i, f)))
  {
    hide OwnsKey, Sound, NoteOf, FileOk, Gate, VerifyFinalized, Guarded, Holds;
    assert RunOk(e, jobs, w, i);
    hide Inv;
    var plan := StageOf(w, i).plan;
    var receipt := VerifyFinalized(e, jobs(i).commitment, plan.built.signature, jobs(i).expected, f).value;
    var v := At(Logged(w, i, Confirmed(f)), i, Verified(plan, receipt));
    assert v.log[|w.log|] == Entry(i, Confirmed(f));
    var a :| 0 <= a < |w.log| && w.log[a] == Entry(i, Sent(plan));
    assert v.log[a] == Entry(i, Sent(plan));
    LogInv(e, jobs, w, i, Confirmed(f), Verified(plan, receipt));
  }

  lemma OpenReceiptInv(e: Setup, jobs: Jobs, w: World, i: nat)
    requires Sound(e) && Inv(e, jobs, w) && StageOf(w, i).Verified? && jobs(i).output !in w.files
    ensures Inv(e, jobs, Next(e, jobs, w, OpenReceipt(i)))
  {
    hide OwnsKey, Sound, NoteOf, EntryOk, Gate, VerifyFinalized, Guarded;
    assert RunOk(e, jobs, w, i);
    hide Inv;
    var stage := StageOf(w, i);
    var v := At(Put(w, jobs(i).output, i, Torn), i, Opening(stage.plan, stage.receipt));
    assert Backed(e, jobs(i), v, i, stage.plan, stage.receipt);
    PutInv(e, jobs, w, i, jobs(i).output, Torn, Opening(stage.plan, stage.receipt));
  }

  lemma SaveReceiptInv(e: Setup, jobs: Jobs, w: World, i: nat)
    requires Sound(e) && Inv(e, jobs, w) && StageOf(w, i).Opening?
    ensures Inv(e, jobs, Next(e, jobs, w, SaveReceipt(i)))
  {
    hide OwnsKey, Sound, NoteOf, EntryOk, Gate, VerifyFinalized, Guarded;
    assert RunOk(e, jobs, w, i);
    hide Inv;
    var stage := StageOf(w, i);
    var v := At(Put(w, jobs(i).output, i, Published(stage.receipt)), i, Done(stage.plan, stage.receipt));
    assert Backed(e, jobs(i), v, i, stage.plan, stage.receipt);
    PutInv(e, jobs, w, i, jobs(i).output, Published(stage.receipt), Done(stage.plan, stage.receipt));
  }

  lemma NextInv(e: Setup, jobs: Jobs, w: World, event: Event)
    requires Sound(e) && Inv(e, jobs, w)
    ensures Inv(e, jobs, Next(e, jobs, w, event))
  {
    hide OwnsKey, Guarded, Sound, NoteOf, Backed, Holds, EntryOk, FileOk, VerifyFinalized, Gate, NothingSent;
    if event.Elsewhere? {
      if event.path !in w.files {
        ElsewhereInv(e, jobs, w, event.path);
      }
    } else {
      var i, job, stage := event.run, jobs(event.run), StageOf(w, event.run);
      var v := Next(e, jobs, w, event);
      assert RunOk(e, jobs, w, i);
      QuietInv(e, jobs, w, i, Stopped);
      hide Inv;
      if v != w && v != At(w, i, Stopped) {
        match event
        case OpenPending(_) => OpenPendingInv(e, jobs, w, i);
        case SavePending(_) => SavePendingInv(e, jobs, w, i);
        case Submit(_, devnet) => SubmitInv(e, jobs, w, i);
        case Fetch(_, fetched) => FetchInv(e, jobs, w, i, fetched);
        case OpenReceipt(_) => OpenReceiptInv(e, jobs, w, i);
        case SaveReceipt(_) => SaveReceiptInv(e, jobs, w, i);
        case _ => QuietStep(e, jobs, w, event);
      }
    }
  }

  lemma {:induction false} RunsInv(e: Setup, jobs: Jobs, w: World, events: seq<Event>)
    requires Sound(e) && Initial(w)
    ensures Inv(e, jobs, Runs(e, jobs, w, events))
  {
    hide Sound, Inv, Next, Initial;
    if events == [] {
      InitialInv(e, jobs, w);
    } else {
      RunsInv(e, jobs, w, events[..|events| - 1]);
      NextInv(e, jobs, Runs(e, jobs, w, events[..|events| - 1]), events[|events| - 1]);
    }
  }

  // ---------------------------------------------------------------- main results

  /** The reads before anything is written all gave acceptable answers. */
  ghost predicate Prepared(events: seq<Event>, i: nat, plan: Plan) {
    && Genesis(i, true) in events && Latest(i, Some(plan.block)) in events
    && Fee(i, Some(plan.fee)) in events && Balance(i, Some(plan.balance)) in events
  }

  /** And so did the submission, made on the development network. */
  ghost predicate Relayed(events: seq<Event>, i: nat, plan: Plan) {
    Prepared(events, i, plan) && Submit(i, true) in events && Answer(i, Some(plan.built.signature)) in events
  }

  /** The answers a run must have had to be where it is. */
  ghost predicate Answered(e: Setup, job: Job, events: seq<Event>, i: nat, stage: Stage) {
    match stage
    case OnDevnet => Genesis(i, true) in events
    case Assembled(block, _) => Genesis(i, true) in events && Latest(i, Some(block)) in events
    case Priced(block, _, fee) =>
      Genesis(i, true) in events && Latest(i, Some(block)) in events && Fee(i, Some(fee)) in events
    case Funded(plan) => Prepared(events, i, plan)
    case Opened(plan) => Prepared(events, i, plan)
    case Saved(plan) => Prepared(events, i, plan)
    case Submitted(plan) => Prepared(events, i, plan) && Submit(i, true) in events
    case Polling(plan) => Relayed(events, i, plan)
    case Finality(plan) => Relayed(events, i, plan) && Poll(i, Finalized) in events
    case Verified(plan, receipt) => Final(e, job, events, i, plan, receipt)
    case Opening(plan, receipt) => Final(e, job, events, i, plan, receipt)
    case Done(plan, receipt) => Final(e, job, events, i, plan, receipt)
    case _ => true
  }

  /** A finalized status, and a fetch that verifies to this receipt. */
  ghost predicate Final(e: Setup, job: Job, events: seq<Event>, i: nat, plan: Plan, receipt: Receipt) {
    && Relayed(events, i, plan) && Poll(i, Finalized) in events
    && exists f :: Fetch(i, f) in events
                   && VerifyFinalized(e, job.commitment, plan.built.signature, job.expected, f) == Some(receipt)
  }

  lemma AnsweredMore(e: Setup, job: Job, events: seq<Event>, x: Event, i: nat, stage: Stage)
    requires Answered(e, job, events, i, stage)
    ensures Answered(e, job, events + [x], i, stage)
  {
    hide VerifyFinalized;
    var more := events + [x];
    assert forall y :: y in events ==> y in more;
  }

  lemma StepAnswered(e: Setup, jobs: Jobs, w: World, events: seq<Event>, x: Event)
    requires Sound(e) && !x.Elsewhere?
    requires Answered(e, jobs(x.run), events + [x], x.run, StageOf(w, x.run))
    ensures Answered(e, jobs(x.run), events + [x], x.run, StageOf(Next(e, jobs, w, x), x.run))
  {
    hide Sound, Build, OwnsKey, Gate, VerifyFinalized, PendingPath, NoteOf;
    assert x in events + [x];
  }

  /** No run gets anywhere but by the answers that stage asks for. */
  lemma {:induction false} RunsAnswered(e: Setup, jobs: Jobs, start: World, events: seq<Event>, i: nat)
    requires Sound(e) && Initial(start)
    ensures Answered(e, jobs(i), events, i, StageOf(Runs(e, jobs, start, events), i))
  {
    hide Sound, Next, Answered;
    if events == [] {
      NobodyAnswered(e, jobs(i), i);
    } else {
      var rest, x := events[..|events| - 1], events[|events| - 1];
      var w := Runs(e, jobs, start, rest);
      assert events == rest + [x];
      RunsAnswered(e, jobs, start, rest, i);
      AnsweredMore(e, jobs(i), rest, x, i, StageOf(w, i));
      if x.Elsewhere? || x.run != i {
        OthersStage(e, jobs, w, x, i);
      } else {
        StepAnswered(e, jobs, w, rest, x);
      }
    }
  }

  lemma NobodyAnswered(e: Setup, job: Job, i: nat)
    ensures Answered(e, job, [], i, Begun)
  {
  }

  lemma OthersStage(e: Setup, jobs: Jobs, w: World, x: Event, i: nat)
    requires Sound(e) && (x.Elsewhere? || x.run != i)
    ensures StageOf(Next(e, jobs, w, x), i) == StageOf(w, i)
  {
    hide Sound, Build, OwnsKey, Gate, VerifyFinalized, PendingPath, NoteOf;
  }

  /** A malformed or failed status ends the run, and an answer other than the signature does. */
  lemma BadAnswerStops(e: Setup, jobs: Jobs, w: World, i: nat, status: Status, signature: Option<string>)
    requires Sound(e)
    ensures StageOf(w, i).Polling? ==>
              StageOf(Next(e, jobs, w, Poll(i, status)), i)
              == (if status in {Malformed, Failing} then Stopped
                  else if status == Finalized then Finality(StageOf(w, i).plan) else StageOf(w, i))
    ensures StageOf(w, i).Submitted? && signature != Some(StageOf(w, i).plan.built.signature) ==>
              StageOf(Next(e, jobs, w, Answer(i, signature)), i) == Stopped
  {
    hide Sound;
  }

  /** However runs interleave and fail, no two submissions are for the same output path. */
  lemma AtMostOnce(e: Setup, jobs: Jobs, start: World, events: seq<Event>, a: nat, b: nat)
    requires Sound(e) && Initial(start)
    requires var log := Runs(e, jobs, start, events).log;
             a < b < |log| && log[a].action.Sent? && log[b].action.Sent?
    ensures var log := Runs(e, jobs, start, events).log;
            jobs(log[a].run).output != jobs(log[b].run).output
  {
    hide Sound, RunOk, FileOk, Guarded, Runs, Initial;
    RunsInv(e, jobs, start, events);
    var w := Runs(e, jobs, start, events);
    assert EntryOk(e, jobs, w, a) && EntryOk(e, jobs, w, b);
  }

  /** What a transaction that publishes a job is: it passed the fee and balance guards, and it
      verifies for the job's commitment, the planned signature and the expected signer. */
  ghost predicate Sendable(e: Setup, job: Job, plan: Plan) {
    && 0 < plan.fee <= 10000 && plan.fee <= plan.balance
    && Verify(e.ed, e.program, plan.built.transaction, job.commitment, plan.built.signature, job.expected) == Ok(())
  }

  lemma GuardedSendable(e: Setup, job: Job, plan: Plan)
    requires Sound(e) && Guarded(e, job, plan)
    ensures Sendable(e, job, plan)
  {
    hide Build, Verify, Encode, Correct;
    BuiltVerifies(e.ed, e.program, job.commitment, job.secret, plan.block.hash);
  }

  /** Only the submission step sends, with the saved plan of its own run. */
  lemma OnlySubmitSends(e: Setup, jobs: Jobs, w: World, event: Event)
    requires Sound(e)
    requires var v := Next(e, jobs, w, event); |w.log| < |v.log| && v.log[|w.log|].action.Sent?
    ensures event.Submit? && StageOf(w, event.run).Saved?
    ensures Next(e, jobs, w, event).log[|w.log|] == Entry(event.run, Sent(StageOf(w, event.run).plan))
  {
    hide Sound, Build, OwnsKey, Gate, VerifyFinalized, PendingPath, NoteOf;
  }

  /** At the moment of submission the run's pending file already holds that very signature,
      complete, and the guards hold. */
  lemma PendingFirst(e: Setup, jobs: Jobs, start: World, events: seq<Event>, event: Event)
    requires Sound(e) && Initial(start)
    requires var w := Runs(e, jobs, start, events);
             var v := Next(e, jobs, w, event);
             |w.log| < |v.log| && v.log[|w.log|].action.Sent?
    ensures var w := Runs(e, jobs, start, events);
            var v := Next(e, jobs, w, event);
            var i, plan := v.log[|w.log|].run, v.log[|w.log|].action.plan;
            && Sendable(e, jobs(i), plan)
            && Holds(w, jobs(i).output + ".pending.json", i,
                     Pending(Note(jobs(i).commitment, jobs(i).expected, plan.built.signature, plan.block.lastValid)))
  {
    hide Runs, Sound, Initial, EntryOk, FileOk, Build, OwnsKey, Gate, VerifyFinalized,
         Guarded, NothingSent, Holds, Sendable, Next;
    RunsInv(e, jobs, start, events);
    var w := Runs(e, jobs, start, events);
    OnlySubmitSends(e, jobs, w, event);
    assert RunOk(e, jobs, w, event.run);
    hide Inv;
    GuardedSendable(e, jobs(event.run), StageOf(w, event.run).plan);
  }

  lemma SentHolds(e: Setup, jobs: Jobs, w: World, i: nat, plan: Plan)
    requires Sound(e) && Inv(e, jobs, w) && Entry(i, Sent(plan)) in w.log
    ensures Holds(w, PendingPath(jobs(i).output), i, Pending(NoteOf(e, jobs(i), plan)))
  {
    hide Sound, RunOk, FileOk, Guarded, NoteOf, PendingPath, Holds;
    var a: nat :| a < |w.log| && w.log[a] == Entry(i, Sent(plan));
    assert EntryOk(e, jobs, w, a);
  }

  /** What a successful final verification establishes about the transaction on the ledger. */
  ghost predicate Confirms(e: Setup, landed: Landed, receipt: Receipt) {
    && landed.wire.Encoded? && |landed.wire.bytes| == WIRE_SIZE && landed.wire.bytes[197..] == receipt.commitment
    && Decode(receipt.signature, 64) == Some(landed.wire.bytes[1..65])
    && Decode(receipt.signer, 32) == Some(landed.wire.bytes[69..101])
    && e.ed.verify(landed.wire.bytes[69..101], landed.wire.bytes[1..65], landed.wire.bytes[65..])
    && landed.legacy && !landed.failed
    && landed.slot == receipt.slot && 0 <= receipt.slot < 0x8000_0000_0000_0000
    && landed.fee == receipt.fee && 0 <= receipt.fee <= 10000
    && landed.blockTime == receipt.blockTime
    && (receipt.blockTime.Some? ==> 0 <= receipt.blockTime.value < 0x8000_0000_0000_0000)
  }

  lemma VerifiedConfirms(e: Setup, commitment: Bytes, signature: string, signer: string, f: Fetched)
    requires |e.program| == 32 && VerifyFinalized(e, commitment, signature, signer, f).Some?
    ensures var receipt := VerifyFinalized(e, commitment, signature, signer, f).value;
            && receipt.commitment == commitment && receipt.signature == signature && receipt.signer == signer
            && f.devnet && f.landed.Some? && Confirms(e, f.landed.value, receipt)
            && f.finalizedSlot == Some(receipt.slot)
  {
    hide Verify, Decode;
    var wire := f.landed.value.wire;
    AcceptedFields(e.ed, e.program, wire, commitment, signature, signer);
    var blockhash := Accepted(e.ed, e.program, wire, commitment, signature, signer);
  }

  /** Whatever a run created besides its pending file is at its output path: a receipt, or
      what a crash left of one. Either way the run submitted, its pending file names the same
      signature, and a finalized transaction was fetched that is signed by the expected
      signer with that signature and carries the commitment. */
  lemma ReceiptVerified(e: Setup, jobs: Jobs, start: World, events: seq<Event>, path: Path, i: nat)
    returns (plan: Plan, f: Fetched, receipt: Receipt)
    requires Sound(e) && Initial(start)
    requires var w := Runs(e, jobs, start, events); path in w.files && w.files[path].owner == Some(i)
    requires path != PendingPath(jobs(i).output)
    ensures var w := Runs(e, jobs, start, events);
            && path == jobs(i).output && w.files[path].content in {Torn, Published(receipt)}
            && Entry(i, Sent(plan)) in w.log && Entry(i, Confirmed(f)) in w.log
            && Holds(w, path + ".pending.json", i,
                     Pending(Note(jobs(i).commitment, jobs(i).expected, plan.built.signature, plan.block.lastValid)))
            && receipt.commitment == jobs(i).commitment && receipt.signer == jobs(i).expected
            && receipt.signature == plan.built.signature
            && f.devnet && f.landed.Some? && Confirms(e, f.landed.value, receipt)
            && f.finalizedSlot == Some(receipt.slot)
  {
    RunsInv(e, jobs, start, events);
    hide Runs, Initial, RunOk, EntryOk, Guarded, NoteOf, PendingPath, Correct, Holds, VerifyFinalized, Confirms;
    var w, job := Runs(e, jobs, start, events), jobs(i);
    assert FileOk(e, jobs, w, path);
    hide Inv;
    if w.files[path].content.Published? {
      receipt := w.files[path].content.receipt;
      plan :| Backed(e, job, w, i, plan, receipt);
    } else {
      plan, receipt :| Backed(e, job, w, i, plan, receipt);
    }
    f :| Entry(i, Confirmed(f)) in w.log
         && VerifyFinalized(e, job.commitment, plan.built.signature, job.expected, f) == Some(receipt);
    SentHolds(e, jobs, w, i, plan);
    VerifiedConfirms(e, job.commitment, plan.built.signature, job.expected, f);
  }

  /** A file with a receipt in it is some run's. */
  lemma ReceiptOwned(e: Setup, jobs: Jobs, start: World, events: seq<Event>, path: Path)
    requires Sound(e) && Initial(start)
    requires var w := Runs(e, jobs, start, events); path in w.files && w.files[path].content.Published?
    ensures var f := Runs(e, jobs, start, events).files[path];
            f.owner.Some? && path == jobs(f.owner.value).output && path != PendingPath(jobs(f.owner.value).output)
  {
    RunsInv(e, jobs, start, events);
    var w := Runs(e, jobs, start, events);
    hide Runs, Initial, RunOk, EntryOk, Sound, Backed;
    assert FileOk(e, jobs, w, path);
    assert |PendingPath(path)| == |path| + |".pending.json"|;
  }

  /** Stopped, or bound to stop at its next check. */
  ghost predicate Blocked(jobs: Jobs, w: World, i: nat) {
    var stage := StageOf(w, i);
    && NothingSent(w.log, i)
    && (|| stage.Stopped?
        || (stage.Begun? && (jobs(i).output in w.files || PendingPath(jobs(i).output) in w.files))
        || (stage.Keyed? && PendingPath(jobs(i).output) in w.files))
  }

  /** A step changes only its own run's stage, logs only under it, and removes no file. */
  lemma StepLocal(e: Setup, jobs: Jobs, w: World, event: Event)
    requires Sound(e) && !event.Elsewhere?
    ensures var v := Next(e, jobs, w, event);
            && (forall j: nat :: j != event.run ==> StageOf(v, j) == StageOf(w, j))
            && (v.log == w.log || exists action :: v.log == w.log + [Entry(event.run, action)])
            && (forall p :: p in w.files ==> p in v.files)
  {
    hide Sound, Build, OwnsKey, Gate, VerifyFinalized, PendingPath, NoteOf;
  }

  /** Another run's step, or another program's file, does not unblock a run. */
  lemma OthersKeepBlocked(e: Setup, jobs: Jobs, w: World, i: nat, event: Event)
    requires Sound(e) && Blocked(jobs, w, i) && (event.Elsewhere? || event.run != i)
    ensures Blocked(jobs, Next(e, jobs, w, event), i)
  {
    hide Sound, PendingPath;
    if !event.Elsewhere? {
      StepLocal(e, jobs, w, event);
      hide Next;
    }
  }

  lemma OwnStepBlocked(e: Setup, jobs: Jobs, w: World, event: Event)
    requires Sound(e) && !event.Elsewhere? && Blocked(jobs, w, event.run)
    ensures Blocked(jobs, Next(e, jobs, w, event), event.run)
  {
    hide Sound, Build, OwnsKey, Gate, VerifyFinalized, PendingPath, NoteOf, NothingSent;
  }

  lemma StaysBlocked(e: Setup, jobs: Jobs, w: World, i: nat, event: Event)
    requires Sound(e) && Blocked(jobs, w, i)
    ensures Blocked(jobs, Next(e, jobs, w, event), i)
  {
    hide Sound, Blocked, Next;
    if event.Elsewhere? || event.run != i {
      OthersKeepBlocked(e, jobs, w, i, event);
    } else {
      OwnStepBlocked(e, jobs, w, event);
    }
  }

  /** A run asked to publish where an output or pending file already exists never submits. */
  lemma {:induction false} RefusesReuse(e: Setup, jobs: Jobs, w: World, i: nat, events: seq<Event>)
    requires Sound(e) && StageOf(w, i).Begun? && NothingSent(w.log, i)
    requires jobs(i).output in w.files || PendingPath(jobs(i).output) in w.files
    ensures Blocked(jobs, Runs(e, jobs, w, events), i)
    ensures NothingSent(Runs(e, jobs, w, events).log, i)
  {
    hide Sound, Next, NothingSent;
    if events != [] {
      RefusesReuse(e, jobs, w, i, events[..|events| - 1]);
      StaysBlocked(e, jobs, Runs(e, jobs, w, events[..|events| - 1]), i, events[|events| - 1]);
    }
  }

  lemma JoinBytes(a: Bytes, b: Bytes)
    requires IsBytes(a) && IsBytes(b)
    ensures IsBytes(a + b)
  {
  }

  lemma BodyBytes(program: Bytes, commitment: Bytes, signer: Bytes, blockhash: Bytes)
    requires IsBytes(program) && IsCommitment(commitment) && IsBytes(signer) && IsBytes(blockhash)
    ensures IsBytes(Body(program, commitment, signer, blockhash))
  {
    var head, tail := HEADER + signer + program + blockhash, INSTRUCTION + [PREFIX_LENGTH + 64] + MEMO_PREFIX;
    assert IsBytes(head) && IsBytes(tail) && IsBytes(commitment);
    JoinBytes(head, tail);
    JoinBytes(head + tail, commitment);
    assert Body(program, commitment, signer, blockhash) == head + tail + commitment;
  }

  /** The client's own gate never refuses the transaction a run built. */
  lemma GateAdmits(e: Setup, job: Job, plan: Plan)
    requires Sound(e) && Guarded(e, job, plan)
    ensures Gate(e, plan.built.transaction)
  {
    hide Verify, Encode, Decode, MaySend;
    GuardedSendable(e, job, plan);
    var tx := plan.built.transaction;
    var signer, hash := e.ed.publicOf(job.secret), Decode(plan.block.hash, 32).value;
    DecodedReencodes(plan.block.hash, 32);
    BodyBytes(e.program, job.commitment, signer, hash);
    var body := Body(e.program, job.commitment, signer, hash);
    var signature := e.ed.sign(job.secret, body);
    KeyFacts(e.ed, job.secret, body);
    hide Body;
    JoinBytes([1], signature);
    JoinBytes([1] + signature, body);
    assert Verifiable(e.ed, e.program, tx);
    SendGateExact(e.ed, e.program, tx);
  }

  // ---------------------------------------------------------------- a run can succeed

  lemma RunsOn(e: Setup, jobs: Jobs, w: World, a: seq<Event>, x: Event)
    requires Sound(e)
    ensures Runs(e, jobs, w, a + [x]) == Next(e, jobs, Runs(e, jobs, w, a), x)
  {
    hide Sound, Next;
    assert (a + [x])[..|a|] == a;
  }

  /** Run i has come this far, with these files and this log. */
  ghost predicate Reached(e: Setup, jobs: Jobs, w: World, events: seq<Event>, i: nat, stage: Stage,
                          files: map<Path, File>, log: seq<Entry>)
    requires Sound(e)
  {
    var v := Runs(e, jobs, w, events);
    StageOf(v, i) == stage && v.files == files && v.log == log
  }

  lemma GetsKeyed(e: Setup, jobs: Jobs, w: World, i: nat) returns (events: seq<Event>)
    requires Sound(e) && StageOf(w, i).Begun? && OwnsKey(e, jobs(i)) && jobs(i).output !in w.files
    ensures Reached(e, jobs, w, events, i, Keyed, w.files, w.log)
  {
    hide Sound, Build, OwnsKey, PendingPath, Gate, NoteOf, VerifyFinalized;
    assert Runs(e, jobs, w, []) == w;
    hide Runs;
    RunsOn(e, jobs, w, [], CheckOutput(i));
    events := [] + [CheckOutput(i)];
  }

  lemma GetsOnDevnet(e: Setup, jobs: Jobs, w: World, i: nat) returns (events: seq<Event>)
    requires Sound(e) && StageOf(w, i).Begun? && OwnsKey(e, jobs(i))
    requires jobs(i).output !in w.files && PendingPath(jobs(i).output) !in w.files
    ensures Reached(e, jobs, w, events, i, OnDevnet, w.files, w.log)
  {
    hide Sound, Build, OwnsKey, PendingPath, Gate, NoteOf, VerifyFinalized, Runs;
    events := GetsKeyed(e, jobs, w, i);
    RunsOn(e, jobs, w, events, CheckPending(i));
    events := events + [CheckPending(i)];
    RunsOn(e, jobs, w, events, Genesis(i, true));
    events := events + [Genesis(i, true)];
  }

  lemma GetsFunded(e: Setup, jobs: Jobs, w: World, before: seq<Event>, i: nat, plan: Plan) returns (events: seq<Event>)
    requires Sound(e) && Reached(e, jobs, w, before, i, OnDevnet, w.files, w.log)
    requires Guarded(e, jobs(i), plan) && IsAmount(plan.block.lastValid, LARGEST)
    ensures Reached(e, jobs, w, events, i, Funded(plan), w.files, w.log)
  {
    hide Sound, Build, OwnsKey, PendingPath, Gate, NoteOf, VerifyFinalized, Runs;
    events := before;
    RunsOn(e, jobs, w, events, Latest(i, Some(plan.block)));
    events := events + [Latest(i, Some(plan.block))];
    RunsOn(e, jobs, w, events, Fee(i, Some(plan.fee)));
    events := events + [Fee(i, Some(plan.fee))];
    RunsOn(e, jobs, w, events, Balance(i, Some(plan.balance)));
    events := events + [Balance(i, Some(plan.balance))];
  }

  lemma GetsPolling(e: Setup, jobs: Jobs, w: World, before: seq<Event>, i: nat, plan: Plan) returns (events: seq<Event>)
    requires Sound(e) && Reached(e, jobs, w, before, i, Funded(plan), w.files, w.log) && Gate(e, plan.built.transaction)
    requires PendingPath(jobs(i).output) !in w.files
    ensures Reached(e, jobs, w, events, i, Polling(plan),
                    w.files[PendingPath(jobs(i).output) := File(Some(i), Pending(NoteOf(e, jobs(i), plan)))],
                    w.log + [Entry(i, Sent(plan))])
  {
    hide Sound, Build, OwnsKey, PendingPath, Gate, NoteOf, VerifyFinalized, Runs;
    events := before;
    RunsOn(e, jobs, w, events, OpenPending(i));
    events := events + [OpenPending(i)];
    RunsOn(e, jobs, w, events, SavePending(i));
    events := events + [SavePending(i)];
    RunsOn(e, jobs, w, events, Submit(i, true));
    events := events + [Submit(i, true)];
    RunsOn(e, jobs, w, events, Answer(i, Some(plan.built.signature)));
    events := events + [Answer(i, Some(plan.built.signature))];
  }

  lemma GetsDone(e: Setup, jobs: Jobs, w: World, before: seq<Event>, i: nat, plan: Plan, f: Fetched, receipt: Receipt,
                 files: map<Path, File>, log: seq<Entry>) returns (events: seq<Event>)
    requires Sound(e) && Reached(e, jobs, w, before, i, Polling(plan), files, log) && jobs(i).output !in files
    requires VerifyFinalized(e, jobs(i).commitment, plan.built.signature, jobs(i).expected, f) == Some(receipt)
    ensures Reached(e, jobs, w, events, i, Done(plan, receipt),
                    files[jobs(i).output := File(Some(i), Published(receipt))], log + [Entry(i, Confirmed(f))])
  {
    hide Sound, Build, OwnsKey, PendingPath, Gate, NoteOf, VerifyFinalized, Runs;
    events := before;
    RunsOn(e, jobs, w, events, Poll(i, Finalized));
    events := events + [Poll(i, Finalized)];
    RunsOn(e, jobs, w, events, Fetch(i, f));
    events := events + [Fetch(i, f)];
    RunsOn(e, jobs, w, events, OpenReceipt(i));
    events := events + [OpenReceipt(i)];
    RunsOn(e, jobs, w, events, SaveReceipt(i));
    events := events + [SaveReceipt(i)];
  }

  /** A run left alone, its paths free and its answers good, ends with exactly its pending
      note and its receipt written, one submission made. */
  lemma GoodAnswersPublish(e: Setup, jobs: Jobs, w: World, i: nat, plan: Plan, f: Fetched, receipt: Receipt)
    returns (events: seq<Event>)
    requires Sound(e) && StageOf(w, i).Begun? && Guarded(e, jobs(i), plan) && IsAmount(plan.block.lastValid, LARGEST)
    requires jobs(i).output !in w.files && PendingPath(jobs(i).output) !in w.files
    requires VerifyFinalized(e, jobs(i).commitment, plan.built.signature, jobs(i).expected, f) == Some(receipt)
    ensures var v := Runs(e, jobs, w, events);
            && v.files == w.files[PendingPath(jobs(i).output) := File(Some(i), Pending(NoteOf(e, jobs(i), plan)))]
                                 [jobs(i).output := File(Some(i), Published(receipt))]
            && v.log == w.log + [Entry(i, Sent(plan))] + [Entry(i, Confirmed(f))]
  {
    GateAdmits(e, jobs(i), plan);
    assert PendingPath(jobs(i).output) != jobs(i).output by {
      assert |PendingPath(jobs(i).output)| == |jobs(i).output| + |".pending.json"|;
    }
    assert OwnsKey(e, jobs(i));
    hide Sound, Guarded, PendingPath, Gate, NoteOf, VerifyFinalized, Runs, OwnsKey;
    events := GetsOnDevnet(e, jobs, w, i);
    events := GetsFunded(e, jobs, w, events, i, plan);
    events := GetsPolling(e, jobs, w, events, i, plan);
    events := GetsDone(e, jobs, w, events, i, plan, f, receipt,
                       w.files[PendingPath(jobs(i).output) := File(Some(i), Pending(NoteOf(e, jobs(i), plan)))],
                       w.log + [Entry(i, Sent(plan))]);
  }
}
