/** The processes a shell started: the breadth-first closure of one process-table snapshot from the
    shell's pid. The table is whatever the system reported: parent links may be cyclic and a pid may
    appear twice. */
module ProcessTree {
  import opened Base

  datatype Row = Row(pid: nat, parent: nat, group: nat, command: string)

  /** Reading a process's directory: it has one, it exited since the snapshot, or the read failed. */
  datatype Cwd = Known(path: string) | Exited | Failed

  datatype Entry = Entry(pid: nat, parent: nat, group: nat, command: string, cwd: string)

  datatype Answer = Found(entries: seq<Entry>) | CwdError(pid: nat)

  // ---------------------------------------------------------------- what a path is

  predicate Edge(rows: seq<Row>, parent: nat, child: nat) {
    exists i :: 0 <= i < |rows| && rows[i].parent == parent && rows[i].pid == child
  }

  /** `pid` is reached from the root by `n` parent links. */
  ghost predicate Path(rows: seq<Row>, root: nat, pid: nat, n: nat)
    decreases n
  {
    if n == 0 then pid == root
    else exists parent :: Edge(rows, parent, pid) && Path(rows, root, parent, n - 1)
  }

  ghost predicate Reachable(rows: seq<Row>, root: nat, pid: nat) {
    exists n: nat :: Path(rows, root, pid, n)
  }

  ghost predicate Distance(rows: seq<Row>, root: nat, pid: nat, n: nat) {
    Path(rows, root, pid, n) && forall m: nat | m < n :: !Path(rows, root, pid, m)
  }

  /** Whatever is reachable is at some distance. */
  lemma {:induction false} HasDistance(rows: seq<Row>, root: nat, pid: nat, n: nat)
    requires Path(rows, root, pid, n)
    ensures exists m: nat :: m <= n && Distance(rows, root, pid, m)
  {
    if m: nat :| m < n && Path(rows, root, pid, m) {
      HasDistance(rows, root, pid, m);
    } else {
      assert Distance(rows, root, pid, n);
    }
  }

  /** What every reachable process but the root must have done for the answer to hold it. */
  ghost predicate Descendant(rows: seq<Row>, root: nat, pid: nat) {
    pid != root && Reachable(rows, root, pid)
  }

  predicate Listed(entries: seq<Entry>, pid: nat) {
    exists i :: 0 <= i < |entries| && entries[i].pid == pid
  }

  predicate Distinct(entries: seq<Entry>) {
    forall i, j | 0 <= i < j < |entries| :: entries[i].pid != entries[j].pid
  }

  /** The entry is one of the table's rows with the directory read for it. */
  predicate FromRow(rows: seq<Row>, cwd: nat -> Cwd, e: Entry) {
    Row(e.pid, e.parent, e.group, e.command) in rows && cwd(e.pid) == Known(e.cwd)
  }

  // ---------------------------------------------------------------- the search

  /** The rows naming `parent`, in table order. */
  function Children(rows: seq<Row>, parent: nat): seq<Row> {
    if rows == [] then []
    else
      var n := |rows| - 1;
      Children(rows[..n], parent) + if rows[n].parent == parent then [rows[n]] else []
  }

  lemma {:induction false} ChildrenMeaning(rows: seq<Row>, parent: nat)
    ensures forall r :: r in Children(rows, parent) <==> r in rows && r.parent == parent
  {
    if rows != [] {
      var n := |rows| - 1;
      ChildrenMeaning(rows[..n], parent);
      assert rows == rows[..n] + [rows[n]];
    }
  }

  datatype Search = Search(
    queue: seq<nat>,
    seen: set<nat>,
    done: set<nat>,
    dist: map<nat, nat>,
    result: seq<Entry>)

  /** Seen, each by a path as long as its distance says; the processed ones no further than the waiting
      ones, which wait in order and span at most one link. */
  ghost predicate Layered(s: Search, rows: seq<Row>, root: nat, level: nat) {
    && root in s.seen && s.dist.Keys == s.seen
    && (forall p | p in s.seen :: Path(rows, root, p, s.dist[p]) && s.dist[p] <= level + 1)
    && (forall p | p in s.done :: p in s.seen && s.dist[p] <= level)
    && (forall q | q in s.queue :: q in s.seen && level <= s.dist[q])
    && (forall i, j | 0 <= i < j < |s.queue| :: s.dist[s.queue[i]] <= s.dist[s.queue[j]])
  }

  /** Each process seen is either processed, being processed or waiting, in one place only. */
  ghost predicate Placed(s: Search, current: set<nat>) {
    && s.seen == s.done + current + (set q | q in s.queue)
    && current !! s.done
    && (forall q | q in s.queue :: q !in s.done && q !in current)
    && (forall i, j | 0 <= i < j < |s.queue| :: s.queue[i] != s.queue[j])
  }

  ghost predicate Closed(s: Search, rows: seq<Row>, p: nat) {
    forall c | Edge(rows, p, c) :: c in s.seen && p in s.seen && s.dist.Keys == s.seen && s.dist[c] <= s.dist[p] + 1
  }

  ghost predicate Collected(s: Search, rows: seq<Row>, root: nat, cwd: nat -> Cwd) {
    && s.dist.Keys == s.seen
    && Distinct(s.result)
    && (forall i | 0 <= i < |s.result| ::
          FromRow(rows, cwd, s.result[i]) && s.result[i].pid in s.seen && s.result[i].pid != root)
    && (forall p | p in s.seen && p != root :: !cwd(p).Failed? && (cwd(p).Known? ==> Listed(s.result, p)))
    && (forall i, j | 0 <= i < j < |s.result| :: s.dist[s.result[i].pid] <= s.dist[s.result[j].pid])
  }

  function See(s: Search, row: Row, level: nat, cwd: Cwd): Search {
    Search(
      s.queue + [row.pid], s.seen + {row.pid}, s.done, s.dist[row.pid := level + 1],
      if cwd.Known? then s.result + [Entry(row.pid, row.parent, row.group, row.command, cwd.path)] else s.result)
  }

  lemma SeePlaced(s: Search, row: Row, level: nat, cwd: Cwd, parent: nat)
    requires Placed(s, {parent}) && row.pid !in s.seen
    ensures Placed(See(s, row, level, cwd), {parent})
  {
  }

  lemma SeeLayered(s: Search, rows: seq<Row>, root: nat, row: Row, cwd: Cwd)
    requires row in rows && row.parent in s.seen && row.pid !in s.seen
    requires s.dist.Keys == s.seen && Layered(s, rows, root, s.dist[row.parent])
    ensures Layered(See(s, row, s.dist[row.parent], cwd), rows, root, s.dist[row.parent])
  {
    var i :| 0 <= i < |rows| && rows[i] == row;
    assert Edge(rows, row.parent, row.pid);
    assert Path(rows, root, row.pid, s.dist[row.parent] + 1);
  }

  lemma SeeCollected(s: Search, rows: seq<Row>, root: nat, cwd: nat -> Cwd, row: Row, level: nat)
    requires Collected(s, rows, root, cwd) && root in s.seen
    requires row in rows && row.pid !in s.seen && !cwd(row.pid).Failed?
    requires forall p | p in s.seen :: s.dist[p] <= level + 1
    ensures Collected(See(s, row, level, cwd(row.pid)), rows, root, cwd)
  {
    var next := See(s, row, level, cwd(row.pid));
    forall p | p in next.seen && p != root && cwd(p).Known?
      ensures Listed(next.result, p)
    {
      if p == row.pid {
        assert next.result[|s.result|].pid == p;
      } else {
        var i :| 0 <= i < |s.result| && s.result[i].pid == p;
        assert next.result[i].pid == p;
      }
    }
  }

  lemma SeeClosed(s: Search, rows: seq<Row>, row: Row, level: nat, cwd: Cwd)
    requires s.dist.Keys == s.seen && row.pid !in s.seen
    ensures forall p | p in s.done && Closed(s, rows, p) :: Closed(See(s, row, level, cwd), rows, p)
  {
  }

  /** `parent` is being processed and its first `k` rows have been. */
  ghost predicate Expanding(s: Search, rows: seq<Row>, root: nat, cwd: nat -> Cwd, parent: nat, kids: seq<Row>,
      k: nat) {
    && parent in s.seen && s.dist.Keys == s.seen
    && Layered(s, rows, root, s.dist[parent])
    && Placed(s, {parent})
    && Collected(s, rows, root, cwd)
    && (forall p | p in s.done :: Closed(s, rows, p))
    && (forall i | 0 <= i < k && i < |kids| :: kids[i].pid in s.seen && s.dist[kids[i].pid] <= s.dist[parent] + 1)
  }

  /** A row whose process was already seen adds nothing. */
  lemma ExpandSeen(s: Search, rows: seq<Row>, root: nat, cwd: nat -> Cwd, parent: nat, kids: seq<Row>, k: nat)
    requires k < |kids| && Expanding(s, rows, root, cwd, parent, kids, k) && kids[k].pid in s.seen
    requires s.dist[kids[k].pid] <= s.dist[parent] + 1
    ensures Expanding(s, rows, root, cwd, parent, kids, k + 1)
  {
  }

  lemma NewDescendant(s: Search, rows: seq<Row>, root: nat, row: Row)
    requires row in rows && row.parent in s.seen && row.pid !in s.seen
    requires s.dist.Keys == s.seen && Layered(s, rows, root, s.dist[row.parent])
    ensures Descendant(rows, root, row.pid)
  {
    var i :| 0 <= i < |rows| && rows[i] == row;
    assert Edge(rows, row.parent, row.pid);
    assert Path(rows, root, row.pid, s.dist[row.parent] + 1);
  }

  lemma ExpandNew(s: Search, rows: seq<Row>, root: nat, cwd: nat -> Cwd, parent: nat, kids: seq<Row>, k: nat)
    requires k < |kids| && Expanding(s, rows, root, cwd, parent, kids, k)
    requires kids[k] in rows && kids[k].parent == parent && kids[k].pid !in s.seen && !cwd(kids[k].pid).Failed?
    ensures Expanding(See(s, kids[k], s.dist[parent], cwd(kids[k].pid)), rows, root, cwd, parent, kids, k + 1)
  {
    var row := kids[k];
    SeeLayered(s, rows, root, row, cwd(row.pid));
    SeePlaced(s, row, s.dist[parent], cwd(row.pid), parent);
    SeeCollected(s, rows, root, cwd, row, s.dist[parent]);
    SeeClosed(s, rows, row, s.dist[parent], cwd(row.pid));
  }

  /** Between two rounds: nothing is being processed and the next one is the nearest waiting. */
  ghost predicate Ready(s: Search, rows: seq<Row>, root: nat, cwd: nat -> Cwd) {
    && (if s.queue == [] then exists level :: Layered(s, rows, root, level)
        else s.queue[0] in s.dist && Layered(s, rows, root, s.dist[s.queue[0]]))
    && Placed(s, {})
    && Collected(s, rows, root, cwd)
    && (forall p | p in s.done :: Closed(s, rows, p))
  }

  lemma PopPlaced(s: Search)
    requires Placed(s, {}) && s.queue != []
    ensures Placed(s.(queue := s.queue[1..]), {s.queue[0]})
  {
    var next := s.(queue := s.queue[1..]);
    assert s.queue == [s.queue[0]] + next.queue;
    assert forall q | q in next.queue :: q in s.queue;
  }

  lemma PopLayered(s: Search, rows: seq<Row>, root: nat, level: nat)
    requires Layered(s, rows, root, level) && s.queue != []
    ensures Layered(s.(queue := s.queue[1..]), rows, root, level)
  {
    assert forall q | q in s.queue[1..] :: q in s.queue;
  }

  lemma StartRound(s: Search, rows: seq<Row>, root: nat, cwd: nat -> Cwd)
    requires Ready(s, rows, root, cwd) && s.queue != []
    ensures Expanding(s.(queue := s.queue[1..]), rows, root, cwd, s.queue[0], Children(rows, s.queue[0]), 0)
    ensures s.queue[0] !in s.done
  {
    PopPlaced(s);
    PopLayered(s, rows, root, s.dist[s.queue[0]]);
    var next := s.(queue := s.queue[1..]);
    forall p | p in s.done ensures Closed(next, rows, p) { assert Closed(s, rows, p); }
  }

  lemma EndRound(s: Search, rows: seq<Row>, root: nat, cwd: nat -> Cwd, parent: nat, kids: seq<Row>)
    requires kids == Children(rows, parent) && Expanding(s, rows, root, cwd, parent, kids, |kids|)
    ensures Ready(s.(done := s.done + {parent}), rows, root, cwd)
  {
    var next := s.(done := s.done + {parent});
    ChildrenMeaning(rows, parent);
    forall c | Edge(rows, parent, c)
      ensures c in s.seen && s.dist[c] <= s.dist[parent] + 1
    {
      var i :| 0 <= i < |rows| && rows[i].parent == parent && rows[i].pid == c;
      assert rows[i] in kids;
    }
    assert Closed(next, rows, parent);
    forall p | p in s.done ensures Closed(next, rows, p) { assert Closed(s, rows, p); }
    if next.queue == [] {
      assert Layered(next, rows, root, s.dist[parent]);
    } else {
      assert next.queue[0] in next.queue;
    }
  }

  /** A finished search has seen everything a path reaches, no later than the path does. */
  lemma {:induction false} PathSeen(s: Search, rows: seq<Row>, root: nat, pid: nat, n: nat)
    requires s.dist.Keys == s.seen == s.done && root in s.seen && s.dist[root] == 0
    requires forall p | p in s.done :: Closed(s, rows, p)
    requires Path(rows, root, pid, n)
    ensures pid in s.seen && s.dist[pid] <= n
    decreases n
  {
    if n > 0 {
      var parent :| Edge(rows, parent, pid) && Path(rows, root, parent, n - 1);
      PathSeen(s, rows, root, parent, n - 1);
      assert Closed(s, rows, parent);
    }
  }

  lemma Finished(s: Search, rows: seq<Row>, root: nat, cwd: nat -> Cwd)
    requires Ready(s, rows, root, cwd) && s.queue == [] && root in s.dist && s.dist[root] == 0
    ensures Complete(rows, root, cwd, s.result)
  {
    var level :| Layered(s, rows, root, level);
    assert s.seen == s.done;
    forall p, n: nat | Path(rows, root, p, n)
      ensures p in s.seen && s.dist[p] <= n
    {
      PathSeen(s, rows, root, p, n);
    }
    assert forall p | p in s.seen :: Distance(rows, root, p, s.dist[p]);
    forall i, j, m: nat, n: nat | 0 <= i < j < |s.result| && Distance(rows, root, s.result[i].pid, m) &&
                                  Distance(rows, root, s.result[j].pid, n)
      ensures m <= n
    {
      SameDistance(rows, root, s.result[i].pid, m, s.dist[s.result[i].pid]);
      SameDistance(rows, root, s.result[j].pid, n, s.dist[s.result[j].pid]);
    }
  }

  lemma SameDistance(rows: seq<Row>, root: nat, pid: nat, m: nat, n: nat)
    requires Distance(rows, root, pid, m) && Distance(rows, root, pid, n)
    ensures m == n
  {
  }

  /** Exactly the descendants that still have a directory, each once, each as the table has it, nearest
      first. A process that exited is left out and what it started is not. */
  ghost predicate Complete(rows: seq<Row>, root: nat, cwd: nat -> Cwd, entries: seq<Entry>) {
    && Distinct(entries)
    && (forall i | 0 <= i < |entries| ::
          FromRow(rows, cwd, entries[i]) && Descendant(rows, root, entries[i].pid))
    && (forall p | Descendant(rows, root, p) :: !cwd(p).Failed? && (cwd(p).Known? ==> Listed(entries, p)))
    && (forall i, j, m: nat, n: nat | 0 <= i < j < |entries| && Distance(rows, root, entries[i].pid, m) &&
                                      Distance(rows, root, entries[j].pid, n) :: m <= n)
  }

  function ListOf(children: map<nat, seq<Row>>, parent: nat): seq<Row> {
    if parent in children then children[parent] else []
  }

  lemma ChildrenNext(rows: seq<Row>, r: nat, parent: nat)
    requires r < |rows|
    ensures Children(rows[..r + 1], parent) ==
            if rows[r].parent == parent then Children(rows[..r], parent) + [rows[r]] else Children(rows[..r], parent)
  {
    assert rows[..r + 1][..r] == rows[..r];
  }

  lemma IndexNext(children: map<nat, seq<Row>>, rows: seq<Row>, r: nat)
    requires r < |rows| && forall p: nat :: ListOf(children, p) == Children(rows[..r], p)
    ensures var next := children[rows[r].parent := ListOf(children, rows[r].parent) + [rows[r]]];
            forall p: nat :: ListOf(next, p) == Children(rows[..r + 1], p)
  {
    var next := children[rows[r].parent := ListOf(children, rows[r].parent) + [rows[r]]];
    forall p: nat ensures ListOf(next, p) == Children(rows[..r + 1], p) {
      assert ListOf(children, p) == Children(rows[..r], p);
      ChildrenNext(rows, r, p);
    }
  }

  /** The table indexed by parent, and whether the root is in it. */
  method Index(rows: seq<Row>, root: nat) returns (children: map<nat, seq<Row>>, rootSeen: bool)
    ensures rootSeen <==> exists r :: r in rows && r.pid == root
    ensures forall p: nat :: ListOf(children, p) == Children(rows, p)
  {
    rootSeen, children := false, map[];
    var r := 0;
    while r < |rows|
      invariant r <= |rows|
      invariant rootSeen <==> exists i :: 0 <= i < r && rows[i].pid == root
      invariant forall p: nat :: ListOf(children, p) == Children(rows[..r], p)
    {
      var row := rows[r];
      IndexNext(children, rows, r);
      children := children[row.parent := ListOf(children, row.parent) + [row]];
      if row.pid == root {
        rootSeen := true;
      }
      r := r + 1;
    }
    assert rows[..r] == rows;
  }

  /** One round of the search: the rows naming `parent`, each process not seen before added and read. */
  method Expand(
    rows: seq<Row>, root: nat, cwd: nat -> Cwd, parent: nat, kids: seq<Row>,
    queue0: seq<nat>, seen0: set<nat>, result0: seq<Entry>, ghost s0: Search)
    returns (queue: seq<nat>, seen: set<nat>, result: seq<Entry>, failed: Option<nat>, ghost s: Search)
    requires kids == Children(rows, parent)
    requires s0.queue == queue0 && s0.seen == seen0 && s0.result == result0
    requires Expanding(s0, rows, root, cwd, parent, kids, 0)
    ensures failed.None? ==>
              && s.queue == queue && s.seen == seen && s.result == result && s.done == s0.done
              && Expanding(s, rows, root, cwd, parent, kids, |kids|)
              && seen <= seen0 + (set r | r in rows :: r.pid)
              && (root in s0.seen ==> root in s.seen && s.dist[root] == s0.dist[root])
    ensures failed.Some? ==> Descendant(rows, root, failed.value) && cwd(failed.value).Failed?
  {
    queue, seen, result, failed, s := queue0, seen0, result0, None, s0;
    ChildrenMeaning(rows, parent);
    for k := 0 to |kids|
      invariant s.queue == queue && s.seen == seen && s.result == result && s.done == s0.done
      invariant Expanding(s, rows, root, cwd, parent, kids, k)
      invariant seen <= seen0 + (set r | r in rows :: r.pid)
      invariant root in s0.seen ==> root in s.seen && s.dist[root] == s0.dist[root]
    {
      var child := kids[k];
      assert child in kids;
      if child.pid in seen {
        ExpandSeen(s, rows, root, cwd, parent, kids, k);
        continue;
      }
      NewDescendant(s, rows, root, child);
      if cwd(child.pid).Failed? {
        return queue, seen, result, Some(child.pid), s;
      }
      ExpandNew(s, rows, root, cwd, parent, kids, k);
      s := See(s, child, s.dist[parent], cwd(child.pid));
      seen := seen + {child.pid};
      queue := queue + [child.pid];
      match cwd(child.pid)
      case Exited =>
      case Known(path) =>
        result := result + [Entry(child.pid, child.parent, child.group, child.command, path)];
    }
  }

  /** A table without the root answers nothing. Otherwise the answer is complete, unless the directory of
      some descendant could not be read, and then it is that error. */
  method Descendants(rows: seq<Row>, root: nat, cwd: nat -> Cwd) returns (answer: Answer)
    ensures (forall r | r in rows :: r.pid != root) ==> answer == Found([])
    ensures (exists r :: r in rows && r.pid == root) && answer.Found? ==> Complete(rows, root, cwd, answer.entries)
    ensures answer.CwdError? ==> Descendant(rows, root, answer.pid) && cwd(answer.pid).Failed?
  {
    var children, rootSeen := Index(rows, root);
    if !rootSeen {
      return Found([]);
    }
    var result: seq<Entry> := [];
    var queue, seen := [root], {root};
    ghost var s := Search([root], {root}, {}, map[root := 0], []);
    ghost var universe := {root} + set r | r in rows :: r.pid;
    StartReady(rows, root, cwd);
    while |queue| > 0
      invariant s.queue == queue && s.seen == seen && s.result == result
      invariant Ready(s, rows, root, cwd) && root in s.dist && s.dist[root] == 0
      invariant s.done <= universe && seen <= universe
      decreases universe - s.done
    {
      var parent := queue[0];
      StartRound(s, rows, root, cwd);
      queue := queue[1..];
      s := s.(queue := queue);
      var kids := ListOf(children, parent);
      var failed;
      queue, seen, result, failed, s := Expand(rows, root, cwd, parent, kids, queue, seen, result, s);
      if failed.Some? {
        return CwdError(failed.value);
      }
      EndRound(s, rows, root, cwd, parent, kids);
      s := s.(done := s.done + {parent});
    }
    Finished(s, rows, root, cwd);
    return Found(result);
  }

  lemma StartReady(rows: seq<Row>, root: nat, cwd: nat -> Cwd)
    ensures Ready(Search([root], {root}, {}, map[root := 0], []), rows, root, cwd)
  {
    assert Path(rows, root, root, 0);
  }
}
