// WriteAtomic on a filesystem with a volatile and a durable layer. A process
// kill leaves what is visible; a power loss leaves, name by name, any binding
// the name has had since its directory was last synced, and anything at all in
// a file written since it was last synced.
module AtomicWrite {
  import opened Common

  const ARTIFACT_MODE: nat := 384 // 0600

  datatype File = File(data: Bytes, mode: nat)

  datatype Node = Node(file: File, settled: bool)

  // names are the visible bindings of one directory, and unsure the earlier
  // bindings a power loss may bring back.
  datatype Disk = Disk(nodes: map<nat, Node>, names: map<string, nat>, unsure: map<string, set<Option<nat>>>, next: nat)

  function Bound(d: Disk, name: string): Option<nat> {
    if name in d.names then Some(d.names[name]) else None
  }

  function Bindings(d: Disk, name: string): set<Option<nat>> {
    {Bound(d, name)} + if name in d.unsure then d.unsure[name] else {}
  }

  ghost predicate Valid(d: Disk) {
    && (forall i :: i in d.nodes ==> i < d.next)
    && (forall name, i :: Some(i) in Bindings(d, name) ==> i in d.nodes)
  }

  function Visible(d: Disk, name: string): Option<File> {
    if name in d.names && d.names[name] in d.nodes then Some(d.nodes[d.names[name]].file) else None
  }

  // What a name may hold after a power loss.
  predicate MayHold(d: Disk, name: string, c: Option<File>) {
    || (None in Bindings(d, name) && c.None?)
    || (c.Some? && exists i :: i in d.nodes && Some(i) in Bindings(d, name)
                               && (d.nodes[i].settled ==> c.value == d.nodes[i].file))
  }

  // A power loss, and what the disk then holds is settled.
  ghost predicate PowerLoss(d: Disk, d': Disk) {
    && d'.unsure == map[] && d'.next == d.next && d'.nodes.Keys == d.nodes.Keys
    && (forall name :: Bound(d', name) in Bindings(d, name))
    && (forall i :: i in d.nodes ==> d'.nodes[i].settled && (d.nodes[i].settled ==> d'.nodes[i] == d.nodes[i]))
  }

  lemma PowerLossOutcome(d: Disk, d': Disk, name: string)
    requires Valid(d) && PowerLoss(d, d')
    ensures Valid(d') && MayHold(d, name, Visible(d', name))
    ensures forall c :: MayHold(d', name, c) <==> c == Visible(d', name)
  {
    forall n, i | Some(i) in Bindings(d', n)
      ensures i in d'.nodes
    {
      assert Some(i) in Bindings(d, n);
    }
    assert Bound(d', name) in Bindings(d, name);
    if name in d'.names { assert Some(d'.names[name]) in Bindings(d, name); }
  }

  // ---- the system calls -----------------------------------------------------

  function Remember(d: Disk, name: string): map<string, set<Option<nat>>> {
    d.unsure[name := Bindings(d, name)]
  }

  function Create(d: Disk, name: string): Disk {
    Disk(d.nodes[d.next := Node(File([], ARTIFACT_MODE), false)], d.names[name := d.next], Remember(d, name),
         d.next + 1)
  }

  function SetFile(d: Disk, i: nat, f: File, settled: bool): Disk {
    d.(nodes := d.nodes[i := Node(f, settled)])
  }

  function Rename(d: Disk, from: string, to: string): Disk
    requires from in d.names && from != to
  {
    var i := d.names[from];
    d.(names := (d.names - {from})[to := i], unsure := Remember(d.(unsure := Remember(d, from)), to))
  }

  function Unlink(d: Disk, name: string): Disk {
    d.(names := d.names - {name}, unsure := Remember(d, name))
  }

  function SyncDirectory(d: Disk): Disk {
    d.(unsure := map[])
  }

  // A write adds to a file and leaves it unsettled, and so does a change of mode;
  // only a sync settles one, and it changes nothing else.
  datatype SystemCall =
    | CreateFile(name: string)
    | Chmod(node: nat, mode: nat)
    | Write(node: nat, more: Bytes)
    | SyncFile(node: nat)
    | RenameFile(name: string, to: string)
    | UnlinkFile(name: string)
    | SyncDir

  predicate Possible(d: Disk, c: SystemCall) {
    match c
    case CreateFile(name) => name !in d.names
    case RenameFile(name, to) => name in d.names && name != to
    case UnlinkFile(name) => name in d.names
    case SyncDir => true
    case _ => c.node in d.nodes
  }

  predicate OnNode(c: SystemCall) {
    c.Chmod? || c.Write? || c.SyncFile?
  }

  function Rewritten(n: Node, c: SystemCall): Node
    requires OnNode(c)
  {
    match c
    case Chmod(_, mode) => Node(n.file.(mode := mode), false)
    case Write(_, more) => Node(n.file.(data := n.file.data + more), false)
    case SyncFile(_) => Node(n.file, true)
  }

  function Apply(d: Disk, c: SystemCall): Disk
    requires Possible(d, c)
  {
    match c
    case CreateFile(name) => Create(d, name)
    case RenameFile(name, to) => Rename(d, name, to)
    case UnlinkFile(name) => Unlink(d, name)
    case SyncDir => SyncDirectory(d)
    case _ => var n := Rewritten(d.nodes[c.node], c); SetFile(d, c.node, n.file, n.settled)
  }

  // One disk follows another by one system call.
  ghost predicate Call(d: Disk, d': Disk) {
    exists c :: Possible(d, c) && d' == Apply(d, c)
  }

  function Before(d0: Disk, ds: seq<Disk>, k: nat): Disk
    requires k <= |ds|
  {
    if k == 0 then d0 else ds[k - 1]
  }

  // Every disk there was, and none left out: each follows the one before it.
  ghost predicate Chain(d0: Disk, ds: seq<Disk>) {
    forall k :: 0 <= k < |ds| ==> Call(Before(d0, ds, k), ds[k])
  }

  lemma CallOf(d: Disk, c: SystemCall)
    requires Possible(d, c)
    ensures Call(d, Apply(d, c))
  {
    hide Possible, Apply;
  }

  lemma ChainOn(d0: Disk, ds: seq<Disk>, d: Disk)
    requires Chain(d0, ds) && Call(Before(d0, ds, |ds|), d)
    ensures Chain(d0, ds + [d])
  {
    hide Call;
    forall k | 0 <= k < |ds + [d]|
      ensures Call(Before(d0, ds + [d], k), (ds + [d])[k])
    {
      assert Before(d0, ds + [d], k) == Before(d0, ds, k);
      if k < |ds| { assert Call(Before(d0, ds, k), ds[k]); }
    }
  }

  // Which of the calls fail. A write may take two calls, the first of them for
  // this many bytes, and one that fails may fail after it.
  datatype Faults = Faults(create: bool, chmod: bool, write: bool, written: nat, sync: bool, close: bool,
                           rename: bool, open: bool, syncDir: bool, remove: bool)

  // ---- what each keeps ------------------------------------------------------

  // Nothing about any name but these changed.
  ghost predicate Apart(d: Disk, d': Disk, names: set<string>) {
    forall name :: name !in names ==>
      && Bindings(d', name) == Bindings(d, name) && Bound(d', name) == Bound(d, name)
      && (forall i :: Some(i) in Bindings(d, name) && i in d.nodes ==> i in d'.nodes && d'.nodes[i] == d.nodes[i])
  }

  // A node no name but this one has.
  ghost predicate Private(d: Disk, tmp: string, i: nat) {
    forall name :: name != tmp ==> Some(i) !in Bindings(d, name)
  }

  lemma ApartHolds(d: Disk, d': Disk, names: set<string>, name: string)
    requires Valid(d) && Apart(d, d', names) && name !in names
    ensures Visible(d', name) == Visible(d, name)
    ensures forall c :: MayHold(d', name, c) <==> MayHold(d, name, c)
  {
    if name in d.names { assert Some(d.names[name]) in Bindings(d, name); }
    forall i | Some(i) in Bindings(d, name)
      ensures i in d.nodes && i in d'.nodes && d'.nodes[i] == d.nodes[i]
    {}
  }

  lemma CreateKeeps(d: Disk, tmp: string)
    requires Valid(d) && tmp !in d.names
    ensures var d' := Create(d, tmp);
            Valid(d') && Apart(d, d', {tmp}) && Private(d', tmp, d.next)
            && d'.nodes[d.next].file == File([], ARTIFACT_MODE)
  {
    var d' := Create(d, tmp);
    forall name, i | Some(i) in Bindings(d', name)
      ensures i in d'.nodes
    {
      if Some(i) !in Bindings(d, name) { assert i == d.next; }
    }
  }

  lemma SetFileKeeps(d: Disk, tmp: string, i: nat, f: File, settled: bool)
    requires Valid(d) && i in d.nodes && Private(d, tmp, i)
    ensures var d' := SetFile(d, i, f, settled);
            Valid(d') && Apart(d, d', {tmp}) && Private(d', tmp, i)
  {
    var d' := SetFile(d, i, f, settled);
    assert forall name :: Bindings(d', name) == Bindings(d, name);
  }

  lemma RenameKeeps(d: Disk, tmp: string, path: string)
    requires Valid(d) && tmp in d.names && tmp != path
    ensures var d' := Rename(d, tmp, path); var i := d.names[tmp];
            && Valid(d') && Apart(d, d', {tmp, path}) && d'.nodes == d.nodes
            && Bindings(d', path) == Bindings(d, path) + {Some(i)} && Bound(d', path) == Some(i) && tmp !in d'.names
  {
    var d' := Rename(d, tmp, path);
    var i := d.names[tmp];
    forall name
      ensures Bindings(d', name) <= Bindings(d, name) + {Some(i), None}
    {}
    assert Some(i) in Bindings(d, tmp);
  }

  lemma UnlinkKeeps(d: Disk, name: string)
    requires Valid(d)
    ensures var d' := Unlink(d, name); Valid(d') && Apart(d, d', {name}) && d'.nodes == d.nodes
  {
    var d' := Unlink(d, name);
    forall n
      ensures Bindings(d', n) <= Bindings(d, n) + {None}
    {}
  }

  lemma SyncDirectoryKeeps(d: Disk)
    requires Valid(d)
    ensures var d' := SyncDirectory(d); Valid(d')
    ensures forall name :: Visible(SyncDirectory(d), name) == Visible(d, name)
    ensures forall name, c :: MayHold(SyncDirectory(d), name, c) ==> MayHold(d, name, c)
  {
    var d' := SyncDirectory(d);
    assert forall name :: Bindings(d', name) == {Bound(d, name)} <= Bindings(d, name);
  }

  // ---- the property ---------------------------------------------------------

  // Old or new, whole and at mode 0600 (384): what is visible, and what any power loss leaves.
  ghost predicate OldOrNew(d0: Disk, d: Disk, path: string, b: Bytes) {
    && (Visible(d, path) == Visible(d0, path) || Visible(d, path) == Some(File(b, 384)))
    && (forall c :: MayHold(d, path, c) ==> MayHold(d0, path, c) || c == Some(File(b, 384)))
  }

  // Every other file holds, and may hold, what it did; a directory sync may
  // only have ended an uncertainty.
  ghost predicate OthersKept(d0: Disk, d: Disk, names: set<string>) {
    forall name :: name !in names ==>
      && Visible(d, name) == Visible(d0, name)
      && (forall c :: MayHold(d, name, c) ==> MayHold(d0, name, c))
  }

  ghost predicate Safe(d0: Disk, d: Disk, tmp: string, path: string, b: Bytes) {
    Valid(d) && OldOrNew(d0, d, path, b) && OthersKept(d0, d, {path, tmp})
  }

  // While the temporary file is being filled, only it differs.
  ghost predicate Filling(d0: Disk, d: Disk, tmp: string, i: nat) {
    Valid(d0) && Valid(d) && Apart(d0, d, {tmp}) && Private(d, tmp, i) && i in d.nodes && Bound(d, tmp) == Some(i)
  }

  lemma FillingSafe(d0: Disk, d: Disk, tmp: string, i: nat, path: string, b: Bytes)
    requires Filling(d0, d, tmp, i) && tmp != path
    ensures Safe(d0, d, tmp, path, b)
  {
    hide MayHold, Apart, Valid, Private;
    ApartHolds(d0, d, {tmp}, path);
    forall name | name !in {path, tmp}
      ensures Visible(d, name) == Visible(d0, name)
      ensures forall c :: MayHold(d, name, c) ==> MayHold(d0, name, c)
    {
      ApartHolds(d0, d, {tmp}, name);
    }
  }

  lemma FillStep(d0: Disk, d: Disk, tmp: string, i: nat, f: File, settled: bool)
    requires Filling(d0, d, tmp, i)
    ensures Filling(d0, SetFile(d, i, f, settled), tmp, i)
  {
    SetFileKeeps(d, tmp, i, f, settled);
  }

  lemma ApartStill(d0: Disk, d: Disk, d': Disk, tmp: string)
    requires Apart(d0, d, {tmp}) && Apart(d, d', {tmp})
    ensures Apart(d0, d', {tmp})
  {
    hide Bindings, Bound;
  }

  lemma RemoveSafe(d0: Disk, d: Disk, tmp: string, i: nat, path: string, b: Bytes)
    requires Filling(d0, d, tmp, i) && tmp != path
    ensures Safe(d0, Unlink(d, tmp), tmp, path, b)
  {
    hide MayHold, Apart, Valid, Private, Unlink;
    UnlinkKeeps(d, tmp);
    var d' := Unlink(d, tmp);
    ApartStill(d0, d, d', tmp);
    ApartHolds(d0, d', {tmp}, path);
    forall name | name !in {path, tmp}
      ensures Visible(d', name) == Visible(d0, name)
      ensures forall c :: MayHold(d', name, c) ==> MayHold(d0, name, c)
    {
      ApartHolds(d0, d', {tmp}, name);
    }
  }

  lemma RenameSafe(d0: Disk, d: Disk, tmp: string, i: nat, path: string, b: Bytes)
    requires Filling(d0, d, tmp, i) && tmp != path && d.nodes[i] == Node(File(b, ARTIFACT_MODE), true)
    ensures tmp in d.names
    ensures var d' := Rename(d, tmp, path);
            Safe(d0, d', tmp, path, b) && Visible(d', path) == Some(File(b, ARTIFACT_MODE)) && d'.nodes[i] == d.nodes[i]
            && Bound(d', path) == Some(i) && i in d'.nodes
  {
    var d' := Rename(d, tmp, path);
    RenameKeeps(d, tmp, path);
    ApartHolds(d0, d, {tmp}, path);
    hide Rename, Apart, Private;
    forall name | name !in {path, tmp}
      ensures Visible(d', name) == Visible(d0, name)
      ensures forall c :: MayHold(d', name, c) ==> MayHold(d0, name, c)
    {
      ApartHolds(d0, d, {tmp}, name);
      ApartHolds(d, d', {tmp, path}, name);
    }
    forall c | MayHold(d', path, c)
      ensures MayHold(d0, path, c) || c == Some(File(b, ARTIFACT_MODE))
    {
      if !MayHold(d, path, c) { RenamedOutcome(d, d', i, path, c); }
    }
  }

  lemma RenamedOutcome(d: Disk, d': Disk, i: nat, path: string, c: Option<File>)
    requires d'.nodes == d.nodes && Bindings(d', path) == Bindings(d, path) + {Some(i)}
    requires MayHold(d', path, c) && !MayHold(d, path, c)
    requires i in d.nodes && d.nodes[i].settled
    ensures c == Some(d.nodes[i].file)
  {}

  lemma SyncSafe(d0: Disk, d: Disk, tmp: string, i: nat, path: string, b: Bytes)
    requires Safe(d0, d, tmp, path, b) && Bound(d, path) == Some(i) && i in d.nodes
    requires d.nodes[i] == Node(File(b, ARTIFACT_MODE), true)
    ensures var d' := SyncDirectory(d);
            Safe(d0, d', tmp, path, b) && Visible(d', path) == Some(File(b, ARTIFACT_MODE))
            && forall c :: MayHold(d', path, c) <==> c == Some(File(b, ARTIFACT_MODE))
  {
    var d' := SyncDirectory(d);
    SyncDirectoryKeeps(d);
    assert Bindings(d', path) == {Some(i)};
    assert d'.nodes == d.nodes;
    forall c
      ensures MayHold(d', path, c) <==> c == Some(File(b, ARTIFACT_MODE))
    {
      if c == Some(File(b, ARTIFACT_MODE)) { assert Some(i) in Bindings(d', path); }
    }
    hide MayHold, Valid, SyncDirectory, Bindings;
  }

  // The temporary name is longer than the name it stands for.
  function TempName(path: string, suffix: string): (tmp: string)
    ensures tmp != path
  {
    assert |"." + path + "." + suffix| > |path|;
    "." + path + "." + suffix
  }

  predicate Faultless(f: Faults) {
    !(f.create || f.chmod || f.write || f.sync || f.close || f.rename || f.open || f.syncDir)
  }

  class FileSystem {
    var disk: Disk
    ghost var trace: seq<Disk>

    constructor (d: Disk)
      ensures disk == d && trace == [d]
    {
      disk := d;
      trace := [d];
    }

    // The disks since the trace was this long, each one system call after the
    // one before it, the last of them the disk there is now.
    ghost predicate Since(d0: Disk, trace0: seq<Disk>)
      reads this
    {
      && trace0 <= trace
      && Chain(d0, trace[|trace0|..])
      && disk == Before(d0, trace[|trace0|..], |trace| - |trace0|)
    }

    method Perform(c: SystemCall, ghost d0: Disk, ghost trace0: seq<Disk>)
      requires Possible(disk, c) && Since(d0, trace0)
      modifies this
      ensures disk == Apply(old(disk), c) && trace == old(trace) + [disk] && Since(d0, trace0)
    {
      hide Possible, Apply, Call, Chain;
      ghost var ds := trace[|trace0|..];
      CallOf(disk, c);
      disk := Apply(disk, c);
      ChainOn(d0, ds, disk);
      trace := trace + [disk];
      assert trace[|trace0|..] == ds + [disk];
    }

    // Create a temporary file beside the target, set its mode, write, sync,
    // close, rename over the target, sync the directory; remove the temporary
    // file whatever happened.
    method WriteAtomic(path: string, b: Bytes, suffix: string, faults: Faults) returns (ok: bool)
      requires Valid(disk)
      modifies this
      ensures Valid(disk) && Since(old(disk), old(trace))
      ensures forall k :: |old(trace)| <= k < |trace| ==> Safe(old(disk), trace[k], TempName(path, suffix), path, b)
      ensures ok <==> TempName(path, suffix) !in old(disk).names && Faultless(faults)
      ensures ok ==> Visible(disk, path) == Some(File(b, 384))
      ensures ok ==> forall c :: MayHold(disk, path, c) <==> c == Some(File(b, 384))
    {
      hide Safe, Filling, Valid, MayHold, Create, SetFile, Rename, Unlink, SyncDirectory, Chain;
      var tmp := TempName(path, suffix);
      ghost var d0, t0 := disk, trace;
      assert trace[|t0|..] == [];
      NothingYet(d0);
      if tmp in disk.names || faults.create { return false; }
      var i := disk.next;
      CreateFills(disk, tmp);
      FillingSafe(d0, Create(disk, tmp), tmp, i, path, b);
      Perform(CreateFile(tmp), d0, t0);
      var full := Fill(tmp, i, path, b, faults, d0, t0);
      if !full || faults.rename {
        if !faults.remove {
          FillingNamed(d0, disk, tmp, i);
          RemoveSafe(d0, disk, tmp, i, path, b);
          Perform(UnlinkFile(tmp), d0, t0);
        }
        SafeValid(d0, disk, tmp, i, path, b);
        return false;
      }
      RenameSafe(d0, disk, tmp, i, path, b);
      Perform(RenameFile(tmp, path), d0, t0);
      SafeValid(d0, disk, tmp, i, path, b);
      if faults.open || faults.syncDir { return false; }
      SyncSafe(d0, disk, tmp, i, path, b);
      Perform(SyncDir, d0, t0);
      SafeValid(d0, disk, tmp, i, path, b);
      return true;
    }

    // The temporary file given its mode, written and synced.
    method Fill(tmp: string, i: nat, path: string, b: Bytes, faults: Faults, ghost d0: Disk, ghost t0: seq<Disk>)
      returns (full: bool)
      requires Filling(d0, disk, tmp, i) && tmp != path && Since(d0, t0)
      requires disk.nodes[i].file.data == []
      requires forall k :: |t0| <= k < |trace| ==> Safe(d0, trace[k], tmp, path, b)
      modifies this
      ensures Filling(d0, disk, tmp, i) && Since(d0, t0)
      ensures forall k :: |t0| <= k < |trace| ==> Safe(d0, trace[k], tmp, path, b)
      ensures full <==> !(faults.chmod || faults.write || faults.sync || faults.close)
      ensures full ==> disk.nodes[i] == Node(File(b, ARTIFACT_MODE), true)
    {
      hide Safe, Filling, Valid, SetFile, Since;
      if faults.chmod { return false; }
      Refill(Chmod(i, ARTIFACT_MODE), d0, t0, tmp, i, path, b);
      var w := if faults.written <= |b| then faults.written else |b|;
      Refill(Write(i, b[..w]), d0, t0, tmp, i, path, b);
      if faults.write { return false; }
      Refill(Write(i, b[w..]), d0, t0, tmp, i, path, b);
      assert [] + b[..w] + b[w..] == b;
      if faults.sync { return false; }
      Refill(SyncFile(i), d0, t0, tmp, i, path, b);
      full := !faults.close;
    }

    method Refill(c: SystemCall, ghost d0: Disk, ghost t0: seq<Disk>, tmp: string, i: nat, path: string, ghost b: Bytes)
      requires OnNode(c) && c.node == i && Filling(d0, disk, tmp, i) && tmp != path && Since(d0, t0)
      requires forall k :: |t0| <= k < |trace| ==> Safe(d0, trace[k], tmp, path, b)
      modifies this
      ensures Filling(d0, disk, tmp, i) && Since(d0, t0)
      ensures disk.nodes[i] == Rewritten(old(disk.nodes[i]), c)
      ensures forall k :: |t0| <= k < |trace| ==> Safe(d0, trace[k], tmp, path, b)
    {
      var n := Rewritten(disk.nodes[i], c);
      FillStep(d0, disk, tmp, i, n.file, n.settled);
      FillingSafe(d0, SetFile(disk, i, n.file, n.settled), tmp, i, path, b);
      hide Safe, Valid, Apart, Private, Chain;
      Perform(c, d0, t0);
    }
  }

  lemma NothingYet(d0: Disk)
    ensures Chain(d0, [])
  {}

  lemma FillingNamed(d0: Disk, d: Disk, tmp: string, i: nat)
    requires Filling(d0, d, tmp, i)
    ensures tmp in d.names
  {}

  lemma CreateFills(d: Disk, tmp: string)
    requires Valid(d) && tmp !in d.names
    ensures Filling(d, Create(d, tmp), tmp, d.next) && Create(d, tmp).nodes[d.next].file.data == []
  {
    CreateKeeps(d, tmp);
  }

  lemma SafeValid(d0: Disk, d: Disk, tmp: string, i: nat, path: string, b: Bytes)
    ensures Safe(d0, d, tmp, path, b) ==> Valid(d)
    ensures Filling(d0, d, tmp, i) ==> Valid(d)
  {}

  // ---- afterwards -----------------------------------------------------------

  // Whatever is lost, the name holds this.
  ghost predicate Durable(d: Disk, path: string, c: Option<File>) {
    Valid(d) && forall x :: MayHold(d, path, x) ==> x == c
  }

  // A later power loss, or any step of writing some other file.
  ghost predicate Later(d: Disk, d': Disk, path: string) {
    || PowerLoss(d, d')
    || exists tmp, other, b :: other != path && tmp != path && Safe(d, d', tmp, other, b)
  }

  lemma LaterKeepsDurable(d: Disk, d': Disk, path: string, c: Option<File>)
    requires Durable(d, path, c) && Later(d, d', path)
    ensures Durable(d', path, c)
  {
    if PowerLoss(d, d') {
      PowerLossOutcome(d, d', path);
    } else {
      var tmp, other, b :| other != path && tmp != path && Safe(d, d', tmp, other, b);
      assert OthersKept(d, d', {other, tmp}) && path !in {other, tmp};
      hide MayHold, Visible, Valid;
      assert Visible(d', path) == Visible(d, path);
    }
  }

  // Once written, the contents outlast any number of later losses and writes.
  lemma {:induction false} DurableForever(ds: seq<Disk>, path: string, c: Option<File>)
    requires ds != [] && Durable(ds[0], path, c)
    requires forall k :: 0 <= k < |ds| - 1 ==> Later(ds[k], ds[k + 1], path)
    ensures Durable(ds[|ds| - 1], path, c) && Visible(ds[|ds| - 1], path) == c
  {
    if |ds| == 1 {
      var d := ds[0];
      if path in d.names { assert Some(d.names[path]) in Bindings(d, path); } else { assert None in Bindings(d, path); }
      assert MayHold(d, path, Visible(d, path));
    } else {
      LaterKeepsDurable(ds[0], ds[1], path, c);
      hide Later, Durable, Visible;
      forall k | 0 <= k < |ds[1..]| - 1
        ensures Later(ds[1..][k], ds[1..][k + 1], path)
      {
        assert Later(ds[k + 1], ds[k + 2], path);
      }
      DurableForever(ds[1..], path, c);
    }
  }
}
