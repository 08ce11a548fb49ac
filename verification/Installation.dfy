/** Profile installation: every repository is checked before any profile is
    written, so an interrupted run is completed by the next one. */
module Installation {
  import opened Wrappers

  // Names, digests and spellings are numbers.

  // ---- verifying one repository's selected sources

  datatype File = File(name: nat, executable: bool, digest: nat)
  datatype Mode = Regular | Executable | OtherMode
  datatype Row = Row(wellFormed: bool, name: nat, blob: bool, mode: Mode, object_: nat)

  const BATCH := 64

  datatype Verdict = Verified | Mismatch | Failed

  /** An immutable commit: what it lists for some names, and its objects. */
  datatype Commit = Commit(list: seq<nat> -> seq<Row>, contents: nat -> nat)

  predicate RowMatches(c: Commit, f: File, r: Row) {
    && r.wellFormed && r.name == f.name && r.blob && (r.mode == Regular || r.mode == Executable)
    && f.executable == (r.mode == Executable) && c.contents(r.object_) == f.digest
  }

  function Names(files: seq<File>): (names: seq<nat>)
    ensures |names| == |files| && forall i | 0 <= i < |files| :: names[i] == files[i].name
  {
    seq(|files|, i requires 0 <= i < |files| => files[i].name)
  }

  predicate DistinctNames(files: seq<File>) {
    forall i, j | 0 <= i < j < |files| :: files[i].name != files[j].name
  }

  /** A batch by name; a repeated name keeps its last file. */
  function WantOf(batch: seq<File>): map<nat, File> {
    if batch == [] then map[] else WantOf(batch[..|batch| - 1])[batch[|batch| - 1].name := batch[|batch| - 1]]
  }

  /** Every row uses up one wanted file it matches, and none is left. */
  predicate Consumed(c: Commit, want: map<nat, File>, rows: seq<Row>) {
    if rows == [] then want == map[]
    else
      && rows[0].name in want && RowMatches(c, want[rows[0].name], rows[0])
      && Consumed(c, want - {rows[0].name}, rows[1..])
  }

  predicate Listed(rows: seq<Row>, n: nat) {
    exists i | 0 <= i < |rows| :: rows[i].name == n
  }

  /** Rows that differ in name and match the wanted files, all of them. */
  ghost predicate Matching(c: Commit, want: map<nat, File>, rows: seq<Row>) {
    && (forall i, j | 0 <= i < j < |rows| :: rows[i].name != rows[j].name)
    && (forall i | 0 <= i < |rows| :: rows[i].name in want && RowMatches(c, want[rows[i].name], rows[i]))
    && (forall n | n in want :: Listed(rows, n))
  }

  lemma {:induction false} ConsumedMatches(c: Commit, want: map<nat, File>, rows: seq<Row>)
    requires Consumed(c, want, rows)
    ensures Matching(c, want, rows)
  {
    if rows != [] {
      var rest, others := rows[1..], want - {rows[0].name};
      ConsumedMatches(c, others, rest);
      forall i | 0 <= i < |rows| ensures rows[i].name in want && RowMatches(c, want[rows[i].name], rows[i]) {
        if i > 0 { assert rows[i] == rest[i - 1]; }
      }
      forall i, j | 0 <= i < j < |rows| ensures rows[i].name != rows[j].name {
        assert rows[j] == rest[j - 1] && (i > 0 ==> rows[i] == rest[i - 1]);
      }
      forall n | n in want ensures Listed(rows, n) {
        if n != rows[0].name {
          assert Listed(rest, n);
          var i :| 0 <= i < |rest| && rest[i].name == n;
          assert rows[i + 1].name == n;
        }
      }
    }
  }

  lemma {:induction false} MatchingConsumes(c: Commit, want: map<nat, File>, rows: seq<Row>)
    requires Matching(c, want, rows)
    ensures Consumed(c, want, rows)
  {
    if rows == [] {
      assert forall n | n in want :: Listed(rows, n);
    } else {
      var rest, others := rows[1..], want - {rows[0].name};
      forall n | n in others ensures Listed(rest, n) {
        assert Listed(rows, n);
        var i :| 0 <= i < |rows| && rows[i].name == n;
        assert rest[i - 1].name == n;
      }
      MatchingConsumes(c, others, rest);
    }
  }

  lemma {:induction false} WantsEach(batch: seq<File>)
    requires DistinctNames(batch)
    ensures forall n :: n in WantOf(batch) <==> exists i :: 0 <= i < |batch| && batch[i].name == n
    ensures forall i | 0 <= i < |batch| :: WantOf(batch)[batch[i].name] == batch[i]
  {
    if batch != [] {
      var n := |batch| - 1;
      WantsEach(batch[..n]);
      assert batch[n].name in WantOf(batch);
      forall i | 0 <= i < |batch| ensures batch[i].name in WantOf(batch) && WantOf(batch)[batch[i].name] == batch[i] {
        if i < n { assert batch[..n][i] == batch[i]; }
      }
    }
  }

  /** Consumes the rows of one batch against a map of what it wants. */
  method VerifyBatch(c: Commit, batch: seq<File>) returns (v: Verdict)
    ensures v == Verified ==> Consumed(c, WantOf(batch), c.list(Names(batch)))
    ensures v == Mismatch ==> !Consumed(c, WantOf(batch), c.list(Names(batch)))
  {
    var want: map<nat, File> := map[];
    for k := 0 to |batch|
      invariant want == WantOf(batch[..k])
    {
      want := want[batch[k].name := batch[k]];
      assert batch[..k + 1][..k] == batch[..k];
    }
    assert batch[..|batch|] == batch;
    var listed: bool := *;
    if !listed { return Failed; }
    var rows := c.list(Names(batch));
    for k := 0 to |rows|
      invariant Consumed(c, WantOf(batch), rows) == Consumed(c, want, rows[k..])
    {
      var row := rows[k];
      assert rows[k..][0] == row && rows[k..][1..] == rows[k + 1..];
      if !row.wellFormed || row.name !in want || !row.blob || (row.mode != Regular && row.mode != Executable) ||
         want[row.name].executable != (row.mode == Executable) || want[row.name].name != row.name {
        return Mismatch;
      }
      var file := want[row.name];
      want := want - {row.name};
      var read: bool := *;
      if !read { return Failed; }
      if c.contents(row.object_) != file.digest { return Mismatch; }
    }
    v := if want == map[] then Verified else Mismatch;
  }

  /** The files from an offset on, batch by batch. */
  function Batch(files: seq<File>, offset: nat): seq<File>
    requires offset <= |files|
  {
    files[offset..if offset + BATCH < |files| then offset + BATCH else |files|]
  }

  predicate AllConsumed(c: Commit, files: seq<File>, offset: nat)
    decreases |files| - offset
  {
    offset < |files| ==>
      Consumed(c, WantOf(Batch(files, offset)), c.list(Names(Batch(files, offset)))) && AllConsumed(c, files, offset + BATCH)
  }

  method VerifySource(c: Commit, files: seq<File>) returns (v: Verdict)
    ensures v == Verified ==> files != [] && AllConsumed(c, files, 0)
    ensures v == Mismatch ==> files == [] || !AllConsumed(c, files, 0)
  {
    if files == [] { return Mismatch; }
    var offset := 0;
    while offset < |files|
      invariant AllConsumed(c, files, 0) == AllConsumed(c, files, offset)
      decreases |files| - offset
    {
      v := VerifyBatch(c, Batch(files, offset));
      if v != Verified { return; }
      offset := offset + BATCH;
    }
    v := Verified;
  }

  /** A commit row of the file's name has its mode and contents. */
  ghost predicate ListsFile(c: Commit, batch: seq<File>, f: File) {
    exists r | r in c.list(Names(batch)) :: RowMatches(c, f, r)
  }

  /** Verification covers every selected file. */
  lemma {:induction false} EveryFileVerified(c: Commit, files: seq<File>, offset: nat, k: nat)
    requires DistinctNames(files) && AllConsumed(c, files, offset) && offset <= k < |files|
    ensures exists b | 0 <= b <= k :: k < b + BATCH && ListsFile(c, Batch(files, b), files[k])
    decreases |files| - offset
  {
    var batch := Batch(files, offset);
    if k < offset + BATCH {
      assert batch[k - offset] == files[k];
      WantsEach(batch);
      ConsumedMatches(c, WantOf(batch), c.list(Names(batch)));
      var rows := c.list(Names(batch));
      assert files[k].name in WantOf(batch) && Listed(rows, files[k].name);
      var i :| 0 <= i < |rows| && rows[i].name == files[k].name;
      assert RowMatches(c, files[k], rows[i]) && ListsFile(c, batch, files[k]);
    } else {
      EveryFileVerified(c, files, offset + BATCH, k);
    }
  }

  // ---- installing every repository's profile

  datatype Entry = Entry(source: nat, epoch: nat, universe: nat, digest: nat)
  datatype Intent = Intent(epoch: nat, digest: nat, universe: nat, restore: bool)

  const NoIntent := Intent(0, 0, 0, false)

  function IntentOf(intents: map<nat, Intent>, name: nat): Intent {
    if name in intents then intents[name] else NoIntent
  }

  function Installed(e: Entry): Intent {
    Intent(e.epoch, e.digest, e.universe, false)
  }

  /** The only write a run makes: a successor where the predecessor was. */
  ghost predicate WritesOnly(entries: map<nat, Entry>, before: map<nat, Intent>, after: map<nat, Intent>) {
    forall n ::
      || IntentOf(after, n) == IntentOf(before, n)
      || (n in entries && IntentOf(before, n).epoch == entries[n].epoch - 1 && IntentOf(after, n) == Installed(entries[n]))
  }

  class Store {
    var sources: map<nat, nat>
    var intents: map<nat, Intent>
    ghost var answers: map<nat, bool> // what each repository's last source read said

    constructor () { sources, intents, answers := map[], map[], map[]; }

    /** Synchronisation may move sources at any time. */
    method Drift()
      modifies this`sources
    {
      var name: nat, source: nat, gone: bool := *, *, *;
      sources := if gone then sources - {name} else sources[name := source];
    }

    /** Whether the repository's current source is the expected one. */
    method SourceIs(name: nat, source: nat) returns (read: bool, current: bool)
      modifies this`sources, this`answers
      ensures current <==> name in sources && sources[name] == source
      ensures answers == old(answers)[name := current]
    {
      Drift();
      read := *;
      current := name in sources && sources[name] == source;
      answers := answers[name := current];
    }

    method GetIntent(name: nat) returns (read: bool, intent: Intent)
      ensures read ==> intent == IntentOf(intents, name)
    {
      read := *;
      intent := IntentOf(intents, name);
    }

    /** Compares source and epoch and writes; a write may be committed and still
        not be acknowledged. */
    method InstallExpectedSource(name: nat, e: Entry) returns (ok: bool)
      requires e.epoch > 0
      modifies this`sources, this`intents
      ensures intents == old(intents) || (IntentOf(old(intents), name).epoch == e.epoch - 1 && intents == old(intents)[name := Installed(e)])
      ensures ok ==> intents == old(intents)[name := Installed(e)]
    {
      Drift();
      if name !in sources || sources[name] != e.source || IntentOf(intents, name).epoch != e.epoch - 1 { return false; }
      var committed: bool, acknowledged: bool := *, *;
      if committed { intents := intents[name := Installed(e)]; }
      ok := committed && acknowledged;
    }
  }

  ghost predicate Distinct(names: seq<nat>) {
    forall i, j | 0 <= i < j < |names| :: names[i] != names[j]
  }

  /** Where the first loop stands: every repository before it was kept or
      withdrawn as its source read said, and the rest are untouched. */
  ghost predicate Sorted(done: seq<nat>, rest: seq<nat>, entries: map<nat, Entry>, admitted: seq<nat>, pending: seq<nat>,
                         answers: map<nat, bool>)
  {
    && Distinct(admitted) && Distinct(pending)
    && (forall n | n in pending :: n in admitted)
    && (forall n | n in admitted :: n in done)
    && (forall n | n in rest :: n in entries)
    && (forall n | n in done :: n in answers && (n in admitted <==> n in entries) && (n in entries <==> answers[n]))
  }

  lemma SortedNext(done: seq<nat>, n: nat, rest: seq<nat>, entries: map<nat, Entry>, admitted: seq<nat>, pending: seq<nat>,
                   answers: map<nat, bool>, kept: bool, due: bool)
    requires Sorted(done, [n] + rest, entries, admitted, pending, answers) && n !in done && n !in rest
    ensures n !in admitted && n in entries
    ensures Sorted(done + [n], rest, if kept then entries else entries - {n}, if kept then admitted + [n] else admitted,
                   if kept && due then pending + [n] else pending, answers[n := kept])
  {
    assert n in [n] + rest;
    forall m | m in rest ensures m in [n] + rest {}
  }

  class Registry {
    var entries: map<nat, Entry>
    var order: seq<nat>
    const commits: nat -> Commit
    const files: nat -> seq<File>

    ghost predicate Valid()
      reads this
    {
      Distinct(order) && (forall n :: n in order <==> n in entries) && (forall n | n in entries :: entries[n].epoch > 0)
    }

    predicate Proved(n: nat) {
      files(n) != [] && AllConsumed(commits(n), files(n), 0)
    }

    constructor (entries: map<nat, Entry>, order: seq<nat>, commits: nat -> Commit, files: nat -> seq<File>)
      requires Distinct(order) && (forall n :: n in order <==> n in entries) && (forall n | n in entries :: entries[n].epoch > 0)
      ensures Valid() && this.entries == entries && this.order == order && this.commits == commits && this.files == files
    {
      this.entries, this.order, this.commits, this.files := entries, order, commits, files;
    }

    /** What a checked repository is: proved, and installed or next in line. */
    ghost predicate Ready(intents: map<nat, Intent>, e: Entry, n: nat, pending: seq<nat>) {
      && Proved(n)
      && (if n in pending then IntentOf(intents, n).epoch == e.epoch - 1 else IntentOf(intents, n) == Installed(e))
    }

    ghost predicate AllReady(intents: map<nat, Intent>, entries: map<nat, Entry>, admitted: seq<nat>, pending: seq<nat>) {
      forall n | n in admitted :: n in entries && Ready(intents, entries[n], n, pending)
    }

    lemma ReadyNext(intents: map<nat, Intent>, entries: map<nat, Entry>, n: nat, admitted: seq<nat>, pending: seq<nat>,
                    kept: bool, due: bool)
      requires AllReady(intents, entries, admitted, pending) && n in entries && n !in admitted
      requires forall m | m in pending :: m in admitted
      requires kept ==> Ready(intents, entries[n], n, if due then [n] else [])
      ensures AllReady(intents, if kept then entries else entries - {n}, if kept then admitted + [n] else admitted,
                       if kept && due then pending + [n] else pending)
    {
      var after := if kept && due then pending + [n] else pending;
      forall m | m in admitted ensures (m in after <==> m in pending) && Ready(intents, entries[m], m, after) {
        assert Ready(intents, entries[m], m, pending);
      }
      if kept { assert n in after <==> due; }
    }

    /** Checks one repository whose source is current: is a write pending? */
    method CheckOne(s: Store, n: nat, e: Entry) returns (v: Verdict, due: bool)
      requires e.epoch > 0
      ensures v == Verified ==> Proved(n)
      ensures v == Verified && due ==> IntentOf(s.intents, n).epoch == e.epoch - 1
      ensures v == Verified && !due ==> IntentOf(s.intents, n) == Installed(e)
      ensures v == Mismatch ==> Refused(s.intents, e, n)
    {
      due := false;
      var read, intent := s.GetIntent(n);
      if !read { return Failed, false; }
      if intent.epoch == e.epoch {
        if intent.digest != e.digest || intent.universe != e.universe || intent.restore { return Mismatch, false; }
      } else if intent.epoch == e.epoch - 1 {
        due := true;
      } else {
        return Mismatch, false;
      }
      v := VerifySource(commits(n), files(n));
    }

    /** Withdraws one repository, or checks it. */
    method CheckNext(s: Store, n: nat) returns (v: Verdict, kept: bool, due: bool)
      requires n in entries && entries[n].epoch > 0
      modifies this`entries, s`sources, s`answers
      ensures v == Verified ==> s.answers == old(s.answers)[n := kept]
      ensures v == Verified && kept ==>
        entries == old(entries) && Ready(s.intents, entries[n], n, if due then [n] else [])
      ensures v == Verified && !kept ==> entries == old(entries) - {n}
      ensures v != Verified ==> entries == old(entries)
      ensures v == Mismatch ==> Refused(s.intents, entries[n], n)
    {
      var e := entries[n];
      var read, current := s.SourceIs(n, e.source);
      if !read { return Failed, false, false; }
      if !current {
        entries := entries - {n};
        return Verified, false, false;
      }
      v, due := CheckOne(s, n, e);
      kept := true;
    }

    /** A repository that no run may go on from. */
    ghost predicate Refused(intents: map<nat, Intent>, e: Entry, n: nat) {
      !Proved(n) || (IntentOf(intents, n) != Installed(e) && IntentOf(intents, n).epoch != e.epoch - 1)
    }

    /** The first loop: withdraws what is no longer current and checks the rest;
        it writes nothing. */
    method CheckAll(s: Store) returns (v: Verdict, admitted: seq<nat>, pending: seq<nat>)
      requires Valid()
      modifies this`entries, s`sources, s`answers
      ensures v == Verified ==>
        && Distinct(admitted) && Distinct(pending)
        && (forall n :: n in admitted <==> n in entries)
        && (forall n | n in pending :: n in admitted)
        && AllReady(s.intents, entries, admitted, pending)
        && (forall n | n in old(entries) :: n in s.answers && (n in entries <==> s.answers[n]))
      ensures forall n | n in entries :: n in old(entries) && entries[n] == old(entries[n])
      ensures v == Mismatch ==> exists n | n in old(entries) :: Refused(s.intents, old(entries)[n], n)
    {
      admitted, pending := [], [];
      for k := 0 to |order|
        invariant Sorted(order[..k], order[k..], entries, admitted, pending, s.answers)
        invariant AllReady(s.intents, entries, admitted, pending)
        invariant forall n | n in entries :: n in old(entries) && entries[n] == old(entries[n])
      {
        var n := order[k];
        assert order[..k + 1] == order[..k] + [n] && order[k..] == [n] + order[k + 1..];
        ghost var answers, before := s.answers, entries;
        var kept, due;
        v, kept, due := CheckNext(s, n);
        if v != Verified { return; }
        ReadyNext(s.intents, before, n, admitted, pending, kept, due);
        SortedNext(order[..k], n, order[k + 1..], before, admitted, pending, answers, kept, due);
        if kept {
          admitted := admitted + [n];
          if due { pending := pending + [n]; }
        }
      }
      v := Verified;
    }

    /** The second loop: writes the pending successors, one by one. */
    method WriteAll(s: Store, pending: seq<nat>) returns (done: bool)
      requires Distinct(pending) && (forall n | n in pending :: n in entries && entries[n].epoch > 0)
      requires forall n | n in pending :: IntentOf(s.intents, n).epoch == entries[n].epoch - 1
      modifies s`sources, s`intents
      ensures forall n | n !in pending :: IntentOf(s.intents, n) == IntentOf(old(s.intents), n)
      ensures forall n | n in pending ::
        IntentOf(s.intents, n) == IntentOf(old(s.intents), n) || IntentOf(s.intents, n) == Installed(entries[n])
      ensures done ==> forall n | n in pending :: IntentOf(s.intents, n) == Installed(entries[n])
    {
      for k := 0 to |pending|
        invariant forall n | n !in pending[..k] :: IntentOf(s.intents, n) == IntentOf(old(s.intents), n)
        invariant forall n | n in pending[..k] :: IntentOf(s.intents, n) == Installed(entries[n])
      {
        var live: bool := *;
        if !live { return false; }
        var n := pending[k];
        assert n !in pending[..k];
        var ok := s.InstallExpectedSource(n, entries[n]);
        if !ok { return false; }
      }
      done := true;
    }

    /** Nothing is written unless every still-current repository proved its
        sources and has its installed or its predecessor epoch; a completed run
        leaves all of them installed. */
    method Install(s: Store) returns (v: Verdict)
      requires Valid()
      modifies this`entries, this`order, s
      ensures forall n | n in entries :: n in old(entries) && entries[n] == old(entries[n])
      ensures WritesOnly(old(entries), old(s.intents), s.intents)
      ensures s.intents != old(s.intents) ==> Valid() && forall n | n in entries :: Proved(n)
      ensures forall n | n !in entries :: IntentOf(s.intents, n) == IntentOf(old(s.intents), n)
      ensures v == Verified ==> Valid() && forall n | n in entries :: Proved(n) && IntentOf(s.intents, n) == Installed(entries[n])
      ensures v == Verified ==> forall n | n in old(entries) :: n in s.answers && (n in entries <==> s.answers[n])
      ensures v == Mismatch ==> exists n | n in old(entries) :: Refused(old(s.intents), old(entries)[n], n)
    {
      var admitted, pending;
      v, admitted, pending := CheckAll(s);
      if v != Verified { return; }
      order := admitted;
      var done := WriteAll(s, pending);
      if !done { v := Failed; }
    }
  }

  // ---- restarts

  /** Some repositories are installed and the others await it. */
  ghost predicate Mixed(entries: map<nat, Entry>, intents: map<nat, Intent>) {
    forall n | n in entries :: IntentOf(intents, n) == Installed(entries[n]) || IntentOf(intents, n).epoch == entries[n].epoch - 1
  }

  /** Any number of runs of one manifest, each a process that loads it afresh and
      may stop anywhere. They keep the mix, never touch an installed repository
      again or one outside the manifest, and when the last of them completes,
      every repository whose source was still current is installed; one that
      refuses found a repository whose sources do not verify. */
  method Restarts(s: Store, runs: nat, entries: map<nat, Entry>, order: seq<nat>, commits: nat -> Commit, files: nat -> seq<File>)
    returns (v: Verdict, last: Registry)
    requires Distinct(order) && (forall n :: n in order <==> n in entries) && (forall n | n in entries :: entries[n].epoch > 0)
    requires Mixed(entries, s.intents)
    modifies s
    ensures Mixed(entries, s.intents) && WritesOnly(entries, old(s.intents), s.intents)
    ensures forall n | n !in entries :: IntentOf(s.intents, n) == IntentOf(old(s.intents), n)
    ensures forall n | n in entries && IntentOf(old(s.intents), n) == Installed(entries[n]) ::
      IntentOf(s.intents, n) == Installed(entries[n])
    ensures v == Verified ==> forall n | n in entries :: n in s.answers && (n in last.entries <==> s.answers[n])
    ensures v == Verified ==> forall n | n in entries && n in last.entries ::
      last.Proved(n) && IntentOf(s.intents, n) == Installed(entries[n])
    ensures v == Mismatch ==> exists n | n in entries :: !last.Proved(n)
    ensures last.commits == commits && last.files == files
  {
    for k := 0 to runs
      invariant Mixed(entries, s.intents) && WritesOnly(entries, old(s.intents), s.intents)
    {
      var _, _ := RunOnce(s, entries, order, commits, files);
    }
    v, last := RunOnce(s, entries, order, commits, files);
  }

  /** One process: it loads the manifest and installs it as far as it gets. */
  method RunOnce(s: Store, entries: map<nat, Entry>, order: seq<nat>, commits: nat -> Commit, files: nat -> seq<File>)
    returns (v: Verdict, r: Registry)
    requires Distinct(order) && (forall n :: n in order <==> n in entries) && (forall n | n in entries :: entries[n].epoch > 0)
    requires Mixed(entries, s.intents)
    modifies s
    ensures Mixed(entries, s.intents) && WritesOnly(entries, old(s.intents), s.intents)
    ensures v == Verified ==> forall n | n in entries :: n in s.answers && (n in r.entries <==> s.answers[n])
    ensures v == Verified ==> forall n | n in entries && n in r.entries ::
      r.Proved(n) && IntentOf(s.intents, n) == Installed(entries[n])
    ensures v == Mismatch ==> exists n | n in entries :: !r.Proved(n)
    ensures r.commits == commits && r.files == files
  {
    r := new Registry(entries, order, commits, files);
    v := r.Install(s);
    if v == Mismatch {
      ghost var n :| n in entries && r.Refused(old(s.intents), entries[n], n);
      assert !r.Proved(n);
    }
  }

  /** A run over such a mix is never refused for an epoch: only sources that do
      not verify can refuse it. */
  lemma MixedIsNotRefused(r: Registry, intents: map<nat, Intent>, n: nat)
    requires Mixed(r.entries, intents) && n in r.entries
    ensures r.Refused(intents, r.entries[n], n) <==> !r.Proved(n)
  {}
}
