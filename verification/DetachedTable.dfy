/** The detached-process table: what each lock-holding operation does to it, and the bounded stream reader. */
module DetachedTable {
  import opened Json
  import opened Seqs

  type Pid = nat

  datatype Settled = Settled(exitCode: Option<int>, signal: Option<int>, aborted: bool, truncated: bool,
                             spillPath: Option<string>)

  datatype Background = Background(stdout: string, stderr: string, settled: Option<Settled>, killKey: Option<string>)

  type Table = map<Pid, Background>
  type Registry = map<string, Pid>

  /** A pid's record; asking for one that is not there makes an empty one. */
  function Entry(t: Table, pid: Pid): Background {
    if pid in t then t[pid] else Background("", "", None, None)
  }

  function Unread(t: Table, pid: Pid, isStdout: bool): string {
    if isStdout then Entry(t, pid).stdout else Entry(t, pid).stderr
  }

  function Pushed(t: Table, pid: Pid, text: string, isStdout: bool): Table {
    var b := Entry(t, pid);
    t[pid := if isStdout then b.(stdout := b.stdout + text) else b.(stderr := b.stderr + text)]
  }

  function Drained(t: Table, pid: Pid): Table {
    if pid in t then t[pid := t[pid].(stdout := "", stderr := "")] else t
  }

  function Sealed(t: Table, pid: Pid, settled: Settled): Table {
    t[pid := Entry(t, pid).(settled := Some(settled))]
  }

  function Named(t: Table, pid: Pid, key: Option<string>): Table {
    t[pid := Entry(t, pid).(killKey := key)]
  }

  /** The registry after a kill by pid has run its two locks without interruption. */
  function Killed(t: Table, r: Registry, pid: Pid): Registry {
    var key := Entry(t, pid).killKey;
    if key.Some? then r - {key.value} else r
  }

  class ChildRegistry {
    var entries: Registry

    constructor ()
      ensures entries == map[]
    {
      entries := map[];
    }

    /** Removing a registration is the ask; it tells whether there was one. */
    method KillRegistered(key: string) returns (live: bool)
      modifies this
      ensures live == (key in old(entries))
      ensures entries == old(entries) - {key}
    {
      live := key in entries;
      entries := entries - {key};
    }
  }

  class DetachedState {
    var table: Table

    constructor ()
      ensures table == map[]
    {
      table := map[];
    }

    method Push(pid: Pid, text: string, isStdout: bool)
      modifies this
      ensures table == Pushed(old(table), pid, text, isStdout)
    {
      var entry := Entry(table, pid);
      if isStdout {
        entry := entry.(stdout := entry.stdout + text);
      } else {
        entry := entry.(stderr := entry.stderr + text);
      }
      table := table[pid := entry];
    }

    /** Hands out the unread text once, and the settle record every time. */
    method Read(pid: Pid) returns (answer: Option<(string, string, Option<Settled>)>)
      modifies this
      ensures table == Drained(old(table), pid)
      ensures answer == if pid in old(table)
                        then Some((Unread(old(table), pid, true), Unread(old(table), pid, false),
                                   old(table)[pid].settled))
                        else None
    {
      if pid !in table {
        return None;
      }
      var entry := table[pid];
      var stdout := entry.stdout;
      entry := entry.(stdout := "");
      var stderr := entry.stderr;
      entry := entry.(stderr := "");
      table := table[pid := entry];
      answer := Some((stdout, stderr, entry.settled));
    }

    method Settle(pid: Pid, settled: Settled)
      modifies this
      ensures table == Sealed(old(table), pid, settled)
    {
      var entry := Entry(table, pid);
      entry := entry.(settled := Some(settled));
      table := table[pid := entry];
    }

    predicate Contains(pid: Pid)
      reads this
    {
      pid in table
    }

    /** Removes the pid's registration; the answer says only whether the pid is known. */
    method Kill(pid: Pid, children: ChildRegistry?) returns (known: bool)
      modifies if children == null then {} else {children}
      ensures known == (pid in table)
      ensures children != null ==> children.entries == Killed(table, old(children.entries), pid)
    {
      var key := Entry(table, pid).killKey;
      if key.None? && !Contains(pid) {
        return false;
      }
      if key.Some? && children != null {
        var removed := key.value in children.entries;
        children.entries := children.entries - {key.value};
        known := removed || Contains(pid);
      } else {
        known := Contains(pid);
      }
    }

    method NameKey(pid: Pid, key: Option<string>)
      modifies this
      ensures table == Named(old(table), pid, key)
    {
      table := table[pid := Entry(table, pid).(killKey := key)];
    }
  }

  // ------------------------------------------------------------- the stream reader

  const MAX_SPILL_BYTES: nat := 64 * 1024 * 1024

  function First<T>(s: seq<T>, n: nat): seq<T> {
    if |s| <= n then s else s[..n]
  }

  function Final<T>(s: seq<T>, n: nat): seq<T> {
    if |s| <= n then s else s[|s| - n..]
  }

  /** One byte into a full ring pushes the oldest out. */
  lemma RingTurns<T>(s: seq<T>, x: T, ring: nat)
    requires ring > 0
    ensures Final(s + [x], ring) == (if |Final(s, ring)| == ring then Final(s, ring)[1..] else Final(s, ring)) + [x]
  {
  }

  lemma SourceGrows<T>(s: seq<T>, more: seq<T>, cap: nat)
    ensures
      var kept := First(s, cap);
      First(s + more, cap) == if |kept| < cap then kept + First(more, cap - |kept|) else kept
  {
  }

  /** The ring takes one chunk byte by byte. */
  method Turn<T>(ring: nat, tail: seq<T>, ghost before: seq<T>, bytes: seq<T>) returns (next: seq<T>)
    requires ring > 0 && tail == Final(before, ring)
    ensures next == Final(before + bytes, ring)
  {
    next := tail;
    assert before + bytes[..0] == before;
    for j := 0 to |bytes|
      invariant next == Final(before + bytes[..j], ring)
    {
      assert before + bytes[..j + 1] == (before + bytes[..j]) + [bytes[j]];
      RingTurns(before + bytes[..j], bytes[j], ring);
      if |next| == ring {
        next := next[1..];
      }
      next := next + [bytes[j]];
    }
    assert bytes[..|bytes|] == bytes;
  }

  /** Keeps the last bytes in a ring and the first in a spill source, and hands every chunk on unbounded. */
  method ReadStream<T>(chunks: seq<seq<T>>, bound: nat)
    returns (tail: seq<T>, full: seq<T>, overflowed: bool, delivered: seq<seq<T>>)
    ensures tail == Final(Flatten(chunks), if bound == 0 then 1 else bound)
    ensures full == First(Flatten(chunks), MAX_SPILL_BYTES)
    ensures overflowed == (|Flatten(chunks)| > bound && MAX_SPILL_BYTES > bound)
    ensures delivered == chunks
  {
    var ring := if bound == 0 then 1 else bound;
    tail, full, delivered := [], [], [];
    for i := 0 to |chunks|
      invariant tail == Final(Flatten(chunks[..i]), ring)
      invariant full == First(Flatten(chunks[..i]), MAX_SPILL_BYTES)
      invariant delivered == chunks[..i]
    {
      var bytes := chunks[i];
      ghost var before := Flatten(chunks[..i]);
      assert chunks[..i + 1] == chunks[..i] + [bytes];
      FlattenMore(chunks[..i], bytes);
      SourceGrows(before, bytes, MAX_SPILL_BYTES);
      if |full| < MAX_SPILL_BYTES {
        var take := if MAX_SPILL_BYTES - |full| < |bytes| then MAX_SPILL_BYTES - |full| else |bytes|;
        full := full + bytes[..take];
      }
      tail := Turn(ring, tail, before, bytes);
      delivered := delivered + [bytes];
    }
    assert chunks[..|chunks|] == chunks;
    overflowed := |full| > bound;
  }
}
