/** The checkpoint: its contents, its file, and the rules by which a resumed drain trusts it. */
module Checkpoints {
  import opened Kube
  import opened Workloads

  /** The identity of a workload when it was recorded. */
  datatype Entry = Entry(kind: string, namespace: string, name: string, uid: string, generation: int)

  function EntryOf(w: Workload): Entry {
    Entry(w.kind, w.namespace, w.name, w.uid, w.generation)
  }

  datatype Data = Data(nodeName: string, context: string, completed: map<string, bool>, workloads: map<string, Entry>)
  {
    /** The keys recorded as completed. */
    function Completed(): set<string> {
      set k | k in completed && completed[k]
    }

    predicate IsDone(w: Workload) {
      KeyOf(w) in Completed()
    }

    /** A key completed by a file written before identities were recorded. */
    predicate IsLegacy(w: Workload) {
      KeyOf(w) !in workloads
    }

    function Mark(w: Workload): Data {
      this.(completed := completed[KeyOf(w) := true], workloads := workloads[KeyOf(w) := EntryOf(w)])
    }

    function For(node: string, ctx: string): Data {
      this.(nodeName := node, context := ctx)
    }
  }

  const EMPTY := Data("", "", map[], map[])

  /** What a file can hold: a whole document, or bytes that do not parse. */
  datatype Content = Whole(data: Data) | Garbage

  /** The checkpoint path and its temporary neighbour. */
  class FileStore {
    var file: Option<Content>
    var tmp: Option<Content>

    constructor ()
      ensures file == None && tmp == None
    {
      file, tmp := None, None;
    }

    /** Removes the file; a file that is not there is no error, but a removal may fail. */
    method Delete(fails: bool) returns (ok: bool)
      modifies this`file
      ensures ok <==> old(file).None? || !fails
      ensures file == if ok then None else old(file)
    {
      if file.Some? && fails {
        return false;
      }
      file := None;
      ok := true;
    }
  }

  /** Reading a path: a missing file is an empty checkpoint, an unreadable or corrupt one an error. */
  function ReadFile(file: Option<Content>, readable: bool): Result<Data, string> {
    match file
    case None => Ok(EMPTY)
    case Some(content) =>
      if !readable then Err("reading checkpoint")
      else if content.Garbage? then Err("parsing checkpoint")
      else Ok(content.data)
  }

  /** Where a save can fail. */
  datatype SaveFault = NoFault | MkdirFails | WriteFails | RenameFails

  class Checkpoint {
    var nodeName: string
    var context: string
    var completed: map<string, bool>
    var workloads: map<string, Entry>

    constructor (d: Data)
      ensures Contents() == d
    {
      nodeName, context, completed, workloads := d.nodeName, d.context, d.completed, d.workloads;
    }

    function Contents(): Data
      reads this
    {
      Data(nodeName, context, completed, workloads)
    }

    /** Records the workload: it is done afterwards with its current identity, and nothing else moves. */
    method MarkDoneAt(w: Workload)
      modifies this`completed, this`workloads
      ensures Contents() == old(Contents()).Mark(w)
      ensures completed == old(completed)[KeyOf(w) := true]
      ensures workloads == old(workloads)[KeyOf(w) := Entry(w.kind, w.namespace, w.name, w.uid, w.generation)]
      ensures Contents().IsDone(w) && !Contents().IsLegacy(w)
      ensures Contents().Completed() == old(Contents()).Completed() + {KeyOf(w)}
    {
      completed := completed[KeyOf(w) := true];
      workloads := workloads[KeyOf(w) := EntryOf(w)];
    }

    /** Writes a temporary file and renames it: the path gets the whole contents or keeps what it had. */
    method Save(store: FileStore, fault: SaveFault) returns (ok: bool)
      modifies store
      ensures ok <==> fault == NoFault
      ensures store.file == if ok then Some(Whole(Contents())) else old(store.file)
      ensures ok ==> store.tmp == None && ReadFile(store.file, true) == Ok(Contents())
    {
      if fault == MkdirFails {
        return false;
      }
      store.tmp := Some(Garbage);
      if fault == WriteFails {
        return false;
      }
      store.tmp := Some(Whole(Contents()));
      if fault == RenameFails {
        return false;
      }
      store.file, store.tmp := store.tmp, None;
      ok := true;
    }
  }

  // ----- trusting a checkpoint -----

  /** Whether a loaded checkpoint may be used for a node under a kube context. */
  predicate Accepts(d: Data, node: string, ctx: string) {
    (d.nodeName == "" || d.nodeName == node) && (d.context == "" || ctx == "" || d.context == ctx)
  }

  /** Identity and generation agree wherever both sides know them. */
  predicate SameWorkload(e: Entry, w: Workload) {
    (e.uid == "" || w.uid == "" || e.uid == w.uid) &&
    (e.generation == 0 || w.generation == 0 || e.generation == w.generation)
  }

  /** Whether resume drops a workload. `pods` is the answer to counting its non-terminal pods on the
      node; it matters for legacy entries only. */
  function CanSkip(d: Data, w: Workload, pods: Result<nat, ApiError>): Result<bool, ApiError> {
    if !d.IsDone(w) then Ok(false)
    else if KeyOf(w) in d.workloads then
      var e := d.workloads[KeyOf(w)];
      if e.uid != "" && w.uid != "" && e.uid != w.uid then Ok(false)
      else if e.generation != 0 && w.generation != 0 && e.generation != w.generation then Ok(false)
      else Ok(true)
    else match pods
      case Err(e) => Err(e)
      case Ok(count) => Ok(count == 0)
  }

  /** Exactly when a workload is dropped: it is recorded as completed, and UID and generation agree wherever
      both sides know them, or, for an entry without identity, no live pod of it is on the node. */
  lemma CanSkipExactly(d: Data, w: Workload, pods: Result<nat, ApiError>)
    ensures CanSkip(d, w, pods) == Ok(true) <==>
      KeyOf(w) in d.completed && d.completed[KeyOf(w)] &&
      if KeyOf(w) in d.workloads then
        var e := d.workloads[KeyOf(w)];
        (e.uid == "" || w.uid == "" || e.uid == w.uid) &&
        (e.generation == 0 || w.generation == 0 || e.generation == w.generation)
      else pods == Ok(0)
    ensures CanSkip(d, w, pods).Err? <==>
      KeyOf(w) in d.completed && d.completed[KeyOf(w)] && KeyOf(w) !in d.workloads && pods.Err?
  {}

  /** Marking one workload and finding another under its key: skipped exactly if both may be one object. */
  lemma {:induction false} RecordedIsSkippedExactly(d: Data, w: Workload, v: Workload, pods: Result<nat, ApiError>)
    requires KeyOf(v) == KeyOf(w)
    ensures CanSkip(d.Mark(w), v, pods) == Ok(true) <==>
      (w.uid == "" || v.uid == "" || w.uid == v.uid) &&
      (w.generation == 0 || v.generation == 0 || w.generation == v.generation)
  {
    CanSkipExactly(d.Mark(w), v, pods);
  }

  /** A Deployment recorded, deleted and created anew is another object, and restarted. */
  lemma RecreatedIsNotSkipped()
    ensures var w := Workload(DEPLOYMENT, "shop", "api", "u1", 1, None, 100);
      CanSkip(EMPTY.Mark(w), w.(uid := "u2"), Ok(0)) == Ok(false)
  {}

  /** The recorded generation is the one seen at discovery, and the restart's patch moves it on: a workload
      found again is skipped exactly when its generation is unknown on a side, or has not moved. */
  lemma {:induction false} BumpedGenerationExactly(d: Data, w: Workload, g: int, pods: Result<nat, ApiError>)
    ensures CanSkip(d.Mark(w), w.(generation := g), pods) == Ok(true) <==>
      w.generation == 0 || g == 0 || g == w.generation
  {
    CanSkipExactly(d.Mark(w), w.(generation := g), pods);
  }

  /** One such workload: completed at generation 1, found at generation 2, and not skipped. */
  lemma CompletedButNotSkipped()
    ensures var w := Workload(DEPLOYMENT, "shop", "api", "u", 1, None, 100);
      EMPTY.Mark(w).IsDone(w.(generation := 2)) && CanSkip(EMPTY.Mark(w), w.(generation := 2), Ok(0)) == Ok(false)
  {}

  /** The workloads still to restart, in order; an error names the first legacy entry left unverified. */
  method FilterCompleted(d: Data, ws: seq<Workload>, pods: seq<Result<nat, ApiError>>)
    returns (r: Result<seq<Workload>, ApiError>)
    requires |pods| == |ws|
    ensures r.Err? <==> exists i :: 0 <= i < |ws| && CanSkip(d, ws[i], pods[i]).Err?
    ensures r.Ok? ==> r.value == Kept(d, ws, pods)
  {
    var remaining := [];
    for i := 0 to |ws|
      invariant forall k :: 0 <= k < i ==> CanSkip(d, ws[k], pods[k]).Ok?
      invariant remaining == Kept(d, ws[..i], pods[..i])
    {
      assert ws[..i + 1][..i] == ws[..i] && pods[..i + 1][..i] == pods[..i];
      match CanSkip(d, ws[i], pods[i])
      case Err(e) => return Err(e);
      case Ok(skip) =>
        if !skip {
          remaining := remaining + [ws[i]];
        }
    }
    assert ws[..|ws|] == ws && pods[..|ws|] == pods;
    r := Ok(remaining);
  }

  function Kept(d: Data, ws: seq<Workload>, pods: seq<Result<nat, ApiError>>): seq<Workload>
    requires |pods| == |ws|
  {
    if ws == [] then []
    else
      var n := |ws| - 1;
      Kept(d, ws[..n], pods[..n]) + if CanSkip(d, ws[n], pods[n]) == Ok(true) then [] else [ws[n]]
  }

  /** Filtering keeps the order and drops a workload only by the skip rule. */
  lemma {:induction false} KeptMeaning(d: Data, ws: seq<Workload>, pods: seq<Result<nat, ApiError>>)
    requires |pods| == |ws|
    ensures forall w :: w in Kept(d, ws, pods) <==>
      exists i :: 0 <= i < |ws| && ws[i] == w && CanSkip(d, ws[i], pods[i]) != Ok(true)
    ensures DistinctKeys(ws) ==> DistinctKeys(Kept(d, ws, pods))
  {
    if ws != [] {
      var n := |ws| - 1;
      var kept := Kept(d, ws[..n], pods[..n]);
      KeptMeaning(d, ws[..n], pods[..n]);
      assert forall i :: 0 <= i < n ==> ws[..n][i] == ws[i] && pods[..n][i] == pods[i];
      if DistinctKeys(ws) {
        forall i | 0 <= i < |kept| ensures KeyOf(kept[i]) != KeyOf(ws[n]) {
          assert kept[i] in kept;
        }
      }
    }
  }

  // ----- the default file name -----

  predicate Unsafe(c: char) {
    c == '/' || c == ':' || c == ' ' || c == '\\'
  }

  function Sanitize(s: string): string {
    seq(|s|, i requires 0 <= i < |s| => if Unsafe(s[i]) then '-' else s[i])
  }

  function DefaultFile(ctx: string, node: string): string {
    Sanitize(ctx) + "-" + Sanitize(node) + ".json"
  }

  /** A file name is one path component: none of the four characters is left in it, no other is changed. */
  lemma {:induction false} FileNameIsClean(ctx: string, node: string)
    ensures forall c :: c in DefaultFile(ctx, node) ==> c != '/' && c != ':' && c != ' ' && c != '\\'
    ensures |DefaultFile(ctx, node)| == |ctx| + |node| + 6 && DefaultFile(ctx, node)[|ctx|] == '-'
    ensures DefaultFile(ctx, node)[|ctx| + 1 + |node|..] == ".json"
    ensures forall i :: 0 <= i < |ctx| ==> DefaultFile(ctx, node)[i] == Cleaned(ctx[i])
    ensures forall i :: 0 <= i < |node| ==> DefaultFile(ctx, node)[|ctx| + 1 + i] == Cleaned(node[i])
  {
    var f := DefaultFile(ctx, node);
    forall c | c in f ensures c != '/' && c != ':' && c != ' ' && c != '\\' {
      assert c in Sanitize(ctx) || c == '-' || c in Sanitize(node) || c in ".json";
    }
  }

  lemma NothingToClean(s: string)
    requires forall c :: c in s ==> c != '/' && c != ':' && c != ' ' && c != '\\'
    ensures Sanitize(s) == s
  {
    assert forall i :: 0 <= i < |s| ==> s[i] in s;
  }

  function Cleaned(c: char): char {
    if c == '/' || c == ':' || c == ' ' || c == '\\' then '-' else c
  }

  /** Under one kube context every node has its own file: node names hold no unsafe character. */
  lemma OneFilePerNode(ctx: string, node: string, node': string)
    requires forall c :: c in node || c in node' ==> c != '/' && c != ':' && c != ' ' && c != '\\'
    ensures DefaultFile(ctx, node) == DefaultFile(ctx, node') <==> node == node'
  {
    NothingToClean(node);
    NothingToClean(node');
    var prefix := Sanitize(ctx) + "-";
    assert DefaultFile(ctx, node)[|prefix|..] == node + ".json";
    assert DefaultFile(ctx, node')[|prefix|..] == node' + ".json";
    if node + ".json" == node' + ".json" {
      assert node == (node + ".json")[..|node|] == (node' + ".json")[..|node|];
      assert |node| == |node'|;
    }
  }

  /** Part of the second drain's context stands at the head of the first one's node name. */
  ghost predicate Shifted(ctx: string, node: string, ctx': string, node': string) {
    exists x :: Sanitize(ctx') == Sanitize(ctx) + "-" + x && Sanitize(node) == x + "-" + Sanitize(node')
  }

  /** Two drains share a default file exactly when their cleaned names agree, or a hyphen lets a part
      move from the context to the node. */
  lemma {:induction false} FilesCollideExactly(ctx: string, node: string, ctx': string, node': string)
    ensures DefaultFile(ctx, node) == DefaultFile(ctx', node') <==>
      (Sanitize(ctx) == Sanitize(ctx') && Sanitize(node) == Sanitize(node')) ||
      Shifted(ctx, node, ctx', node') || Shifted(ctx', node', ctx, node)
  {
    if DefaultFile(ctx, node) == DefaultFile(ctx', node') {
      if |ctx| <= |ctx'| {
        CollisionShifts(ctx, node, ctx', node');
      } else {
        CollisionShifts(ctx', node', ctx, node);
      }
    }
  }

  lemma CollisionShifts(ctx: string, node: string, ctx': string, node': string)
    requires DefaultFile(ctx, node) == DefaultFile(ctx', node') && |ctx| <= |ctx'|
    ensures (Sanitize(ctx) == Sanitize(ctx') && Sanitize(node) == Sanitize(node')) || Shifted(ctx, node, ctx', node')
  {
    var a, b, a', b' := Sanitize(ctx), Sanitize(node), Sanitize(ctx'), Sanitize(node');
    var s := a + "-" + b + ".json";
    assert s == a' + "-" + b' + ".json";
    assert a == s[..|a|] && a' == s[..|a'|] && |a| + |b| == |a'| + |b'|;
    var stem := s[..|s| - 5];
    assert stem == a + "-" + b && stem == a' + "-" + b';
    if |a| < |a'| {
      var x := a'[|a| + 1..];
      assert a' == a + "-" + x;
      assert b == stem[|a| + 1..] == x + "-" + b';
    } else {
      assert b == stem[|a| + 1..] == b';
    }
  }

  /** Across contexts two drains may share a file; validation then keeps the node names apart. */
  lemma FilesMayCollideAcrossContexts()
    ensures DefaultFile("prod", "a-b") == DefaultFile("prod-a", "b")
    ensures forall d: Data :: d.nodeName == "a-b" ==> !Accepts(d, "b", "prod-a")
  {
    assert Sanitize("prod") == "prod" && Sanitize("a-b") == "a-b";
    assert Sanitize("prod-a") == "prod-a" && Sanitize("b") == "b";
    assert "prod" + "-" + "a-b" == "prod-a" + "-" + "b";
  }
}
