/** The SQLite state store: the saved tables as one value, a connection whose open
    transaction may hide writes from it, and the nesting depth that makes only the
    outermost block durable. */
module StateStore {
  import opened Resources
  import opened Protocol

  /** One save, delete or set statement. */
  datatype Write =
    | PutTask(t: TaskId, task: Task)
    | PutNode(n: NodeId, node: Node)
    | PutLease(t: TaskId, lease: Lease)
    | DropLease(t: TaskId)
    | PutReceipts(receipts: seq<Receipt>)
    | PutLedger(plan: PlanId, ledger: Ledger)
    | PutVersion(version: int)

  function Apply(d: Durable, w: Write): Durable {
    match w
    case PutTask(t, task) => d.(tasks := d.tasks[t := task])
    case PutNode(n, node) => d.(nodes := d.nodes[n := node])
    case PutLease(t, lease) => d.(leases := d.leases[t := lease])
    case DropLease(t) => d.(leases := d.leases - {t})
    case PutReceipts(receipts) => d.(receipts := receipts)
    case PutLedger(plan, ledger) => d.(ledgers := d.ledgers[plan := ledger])
    case PutVersion(version) => d.(version := version)
  }

  /** Applies the writes from position `i` on. */
  function ApplyFrom(d: Durable, ws: seq<Write>, i: nat): Durable
    requires i <= |ws|
    decreases |ws| - i
  {
    if i == |ws| then d else ApplyFrom(Apply(d, ws[i]), ws, i + 1)
  }

  /** `committed` survives a crash; `working` is what the connection reads; `open` says
      that a transaction is open, in which the two may differ. */
  datatype Connection = Connection(committed: Durable, working: Durable, depth: nat, open: bool) {
    ghost predicate Settled() {
      depth == 0 && !open && working == committed
    }
  }

  /** Entering the outermost block begins a transaction, which fails inside another one. */
  predicate CanEnter(c: Connection) {
    c.depth > 0 || !c.open
  }

  function Entered(c: Connection): Connection {
    c.(depth := c.depth + 1, open := c.open || c.depth == 0)
  }

  /** A statement commits at once, and whatever was pending with it, unless a block is open. */
  function Saved(c: Connection, w: Write): Connection {
    var working := Apply(c.working, w);
    if c.depth == 0 then Connection(working, working, 0, false) else c.(working := working)
  }

  /** Leaving the outermost block commits, or rolls back after an exception. */
  function Left(c: Connection, raised: bool): Connection
    requires c.depth > 0
  {
    if c.depth > 1 then c.(depth := c.depth - 1)
    else if raised then Connection(c.committed, c.committed, 0, false)
    else Connection(c.working, c.working, 0, false)
  }

  /** The outermost commit itself fails. Nothing rolls back: SQLite may have given up the
      transaction, or kept it open with its writes. */
  function LeftFailing(c: Connection, kept: bool): Connection
    requires c.depth == 1
  {
    if kept then c.(depth := 0) else Connection(c.committed, c.committed, 0, false)
  }

  // ----- nested blocks

  datatype Event = Enter | Save(w: Write) | Leave(raised: bool)

  function After(c: Connection, e: Event): Connection
    requires e.Leave? ==> c.depth > 0
  {
    match e
    case Enter => Entered(c)
    case Save(w) => Saved(c, w)
    case Leave(raised) => Left(c, raised)
  }

  /** `events` from position `i` on happen inside a block entered before them: nested blocks
      come and go, also by exceptions that the body catches, and the outer block stays open. */
  ghost predicate Inside(c: Connection, events: seq<Event>, i: nat)
    requires i <= |events|
    decreases |events| - i
  {
    && c.depth > 0
    && (i < |events| ==>
          && (events[i].Leave? ==> c.depth > 1)
          && Inside(After(c, events[i]), events, i + 1))
  }

  function AfterAll(c: Connection, events: seq<Event>, i: nat): Connection
    requires i <= |events| && Inside(c, events, i)
    decreases |events| - i
  {
    if i == |events| then c else AfterAll(After(c, events[i]), events, i + 1)
  }

  function WritesFrom(events: seq<Event>, i: nat): seq<Write>
    requires i <= |events|
    decreases |events| - i
  {
    if i == |events| then []
    else if events[i].Save? then [events[i].w] + WritesFrom(events, i + 1)
    else WritesFrom(events, i + 1)
  }

  lemma {:induction false} ApplyFromTail(d: Durable, w: Write, ws: seq<Write>, i: nat)
    requires i <= |ws|
    ensures ApplyFrom(d, [w] + ws, i + 1) == ApplyFrom(d, ws, i)
    decreases |ws| - i
  {
    if i < |ws| {
      ApplyFromTail(Apply(d, ws[i]), w, ws, i + 1);
    }
  }

  lemma ApplyOneMore(d: Durable, w: Write, ws: seq<Write>)
    ensures ApplyFrom(d, [w] + ws, 0) == ApplyFrom(Apply(d, w), ws, 0)
  {
    ApplyFromTail(Apply(d, w), w, ws, 0);
  }

  /** Inside a block nothing becomes durable, and an inner block that fails undoes nothing. */
  lemma {:induction false} InsideNothingIsDurable(c: Connection, events: seq<Event>, i: nat)
    requires i <= |events| && c.open && Inside(c, events, i)
    ensures var c' := AfterAll(c, events, i);
            && c'.committed == c.committed && c'.open && c'.depth > 0
            && c'.working == ApplyFrom(c.working, WritesFrom(events, i), 0)
    decreases |events| - i
  {
    if i < |events| {
      InsideNothingIsDurable(After(c, events[i]), events, i + 1);
      if events[i].Save? {
        ApplyOneMore(c.working, events[i].w, WritesFrom(events, i + 1));
      }
    }
  }

  /** Only the outermost exit decides: all writes of the block and of the blocks nested in
      it become durable together, or none does. */
  lemma OutermostExitDecides(c: Connection, events: seq<Event>, raised: bool)
    requires c.Settled() && Inside(Entered(c), events, 0) && AfterAll(Entered(c), events, 0).depth == 1
    ensures var c' := Left(AfterAll(Entered(c), events, 0), raised);
            && c'.Settled()
            && c'.committed == if raised then c.committed else ApplyFrom(c.committed, WritesFrom(events, 0), 0)
  {
    InsideNothingIsDurable(Entered(c), events, 0);
  }

  // ----- the outermost commit fails

  /** Two different stores stay different after some statement. */
  lemma SomeWriteTellsApart(d: Durable, d': Durable) returns (w: Write)
    requires d != d'
    ensures Apply(d, w) != Apply(d', w)
  {
    if d.version != d'.version {
      w := PutReceipts([]);
    } else {
      w := PutVersion(0);
    }
  }

  /** After a failed outermost commit the next statement publishes only itself, whatever it
      is, exactly when nothing is left pending on the connection; and a transaction that was
      kept refuses the next block until then. */
  lemma FailedCommitLeaksIffPending(c: Connection, kept: bool)
    requires c.depth == 1
    ensures var c' := LeftFailing(c, kept);
            && c'.committed == c.committed
            && (c.open ==> (CanEnter(c') <==> !kept))
            && (forall w :: CanEnter(Saved(c', w)))
            && ((forall w :: Saved(c', w).committed == Apply(c.committed, w)) <==> (kept ==> c.working == c.committed))
  {
    var c' := LeftFailing(c, kept);
    if kept && c.working != c.committed {
      var w := SomeWriteTellsApart(c.working, c.committed);
      assert Saved(c', w).committed == Apply(c.working, w);
    }
  }

  // ----- the store

  class SqliteStore {
    var committed: Durable
    var working: Durable
    var depth: nat
    var open: bool
    /** Writes and commits can be relied on; otherwise each may fail. */
    const reliable: bool

    ghost function View(): Connection
      reads this
    {
      Connection(committed, working, depth, open)
    }

    constructor (stored: Durable, reliable: bool)
      ensures View() == Connection(stored, stored, 0, false) && this.reliable == reliable
    {
      committed, working, depth, open, this.reliable := stored, stored, 0, false, reliable;
    }

    method EnterBlock() returns (ok: bool)
      modifies this
      ensures ok ==> CanEnter(old(View())) && View() == Entered(old(View()))
      ensures !ok ==> View() == old(View())
      ensures reliable && CanEnter(old(View())) ==> ok
    {
      if depth == 0 {
        ok := !open;
        if !reliable && ok { ok := *; }
        if !ok { return; }
        open := true;
      }
      depth := depth + 1;
      ok := true;
    }

    /** Any of the save, delete and set methods. */
    method Write(w: Write) returns (ok: bool)
      modifies this
      ensures ok ==> View() == Saved(old(View()), w)
      ensures !ok ==> committed == old(committed) && depth == old(depth)
      ensures !ok && depth > 0 ==> View() == old(View())
      ensures reliable ==> ok
    {
      var executes, commits := true, true;
      if !reliable { executes, commits := *, *; }
      if !executes { return false; }
      working := Apply(working, w);
      if depth == 0 {
        if !commits {
          open := true;
          return false;
        }
        committed := working;
        open := false;
      }
      ok := true;
    }

    method LeaveBlock(raised: bool) returns (ok: bool)
      requires depth > 0
      modifies this
      ensures ok ==> View() == Left(old(View()), raised)
      ensures !ok ==> !raised && old(depth) == 1 && exists kept :: View() == LeftFailing(old(View()), kept)
      ensures reliable ==> ok
    {
      var commits, kept := true, false;
      if !reliable { commits, kept := *, *; }
      depth := depth - 1;
      ok := true;
      if depth == 0 {
        if raised {
          working, open := committed, false;
        } else if commits {
          committed, open := working, false;
        } else {
          if !kept {
            working, open := committed, false;
          }
          assert View() == LeftFailing(old(View()), kept);
          ok := false;
        }
      }
    }
  }
}
