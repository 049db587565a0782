/** What the append loop does to a log, in closed form. */
module Logs {
  import opened RaftTypes
  import opened RaftNode

  /** How many leading entries have the term that `log` already holds from position `k` on. */
  function Agree(log: seq<LogEntry>, k: nat, entries: seq<LogEntry>): (j: nat)
    requires k <= |log|
    ensures j <= |entries| && k + j <= |log|
    ensures forall x :: 0 <= x < j ==> log[k + x].term == entries[x].term
    ensures j < |entries| && k + j < |log| ==> log[k + j].term != entries[j].term
    decreases |entries|
  {
    if entries == [] || k == |log| || log[k].term != entries[0].term then 0
    else 1 + Agree(log, k + 1, entries[1..])
  }

  /** Keep the log when all entries agree, otherwise cut it at the first disagreement. */
  function MergeLog(log: seq<LogEntry>, k: nat, entries: seq<LogEntry>): seq<LogEntry>
    requires k <= |log|
  {
    var j := Agree(log, k, entries);
    if j == |entries| then log else log[..k + j] + entries[j..]
  }

  lemma MergeKeeps(log: seq<LogEntry>, k: nat, entries: seq<LogEntry>)
    requires k <= |log|
    ensures var r := MergeLog(log, k, entries);
            |r| >= k + |entries| && r[..k] == log[..k] && (entries == [] ==> r == log)
  {
    var r := MergeLog(log, k, entries);
    assert r[..k] == log[..k];
  }

  lemma MergeSame(log: seq<LogEntry>, k: nat, entries: seq<LogEntry>)
    requires k < |log| && entries != [] && log[k].term == entries[0].term
    ensures MergeLog(log, k, entries) == MergeLog(log, k + 1, entries[1..])
  {
    var rest := entries[1..];
    var j := Agree(log, k + 1, rest);
    assert Agree(log, k, entries) == j + 1;
    assert entries[j + 1..] == rest[j..];
  }

  lemma MergeCut(log: seq<LogEntry>, k: nat, entries: seq<LogEntry>)
    requires k <= |log| && entries != [] && (k < |log| ==> log[k].term != entries[0].term)
    ensures MergeLog(log, k, entries) == log[..k] + entries
    ensures MergeLog(log[..k] + [entries[0]], k + 1, entries[1..]) == log[..k] + entries
  {
    var cut := log[..k] + [entries[0]];
    assert Agree(log, k, entries) == 0;
    assert Agree(cut, k + 1, entries[1..]) == 0;
    assert cut[..k + 1] == cut;
    assert cut + entries[1..] == log[..k] + entries;
  }

  lemma MergeNothing(log: seq<LogEntry>, k: nat)
    requires k <= |log|
    ensures MergeLog(log, k, []) == log
  {
  }

  /** At or above the snapshot the append loop never panics and computes `MergeLog`. */
  lemma {:induction false} MergeIsMergeLog(n: Node, index: nat, entries: seq<LogEntry>)
    requires n.snapIndex < index <= n.LastLogIndex() + 1
    ensures n.Merge(index, entries) == Some(n.(log := MergeLog(n.log, index - n.snapIndex - 1, entries)))
    decreases |entries|
  {
    hide MergeLog, Agree;
    var k := index - n.snapIndex - 1;
    if entries == [] {
      MergeNothing(n.log, k);
    } else {
      var rest := entries[1..];
      if index <= n.LastLogIndex() && n.log[k].term == entries[0].term {
        MergeSame(n.log, k, entries);
        MergeIsMergeLog(n, index + 1, rest);
      } else {
        MergeCut(n.log, k, entries);
        var n' := n.(log := n.log[..k] + [entries[0]]);
        assert index > n.LastLogIndex() ==> n.log[..k] == n.log;
        MergeIsMergeLog(n', index + 1, rest);
      }
    }
  }
}
