/**
 The Raft object of raft.go, working on the trimmed log as the program does. `past` is the ghost
 of the entries a snapshot replaced; `View()` is the peer with its whole log, and every method is
 proved to act on the view exactly as the corresponding handler of RaftPeer.
 */
module RaftClass {
  import opened Kv
  import opened RaftCore
  import opened RaftPeer

  datatype Saved = Saved(term: nat, vote: int, logs: Log, snapIndex: nat, snapshot: Table)

  class Raft {
    const me: nat
    const peers: nat

    var role: Role
    var currentTerm: nat
    var voteFor: int
    var logs: Log
    var snapshotIndex: nat
    var snapshot: Table
    var commitIndex: nat
    var lastApplied: nat
    var nextIndex: seq<int>
    var matchIndex: seq<int>
    var gotVotes: nat
    var saved: Saved

    ghost var past: Log
    ghost var savedPast: Log

    /** Slot 0 of logs is the entry at snapshotIndex, in memory and on disk. */
    ghost predicate Valid()
      reads this
    {
      && |past| == snapshotIndex && logs != []
      && |savedPast| == saved.snapIndex && saved.logs != []
    }

    ghost function View(): Node
      reads this
    {
      Node(role, currentTerm, voteFor, past + logs, snapshotIndex, snapshot, commitIndex, lastApplied,
           nextIndex, matchIndex, gotVotes,
           Disk(saved.term, saved.vote, savedPast + saved.logs, saved.snapIndex, saved.snapshot))
    }

    function GetLastLogIndex(): (i: nat)
      requires Valid()
      reads this
      ensures i == LastIndex(View().log)
    {
      |logs| - 1 + snapshotIndex
    }

    function GetLastLogTerm(): (t: nat)
      requires Valid()
      reads this
      ensures t == LastTerm(View().log)
    {
      logs[|logs| - 1].term
    }

    /** rf.log(i): the entry at global index i. */
    function At(i: nat): (e: Entry)
      requires Valid() && snapshotIndex <= i <= GetLastLogIndex()
      reads this
      ensures e == View().log[i]
    {
      logs[i - snapshotIndex]
    }

    /** Make() on what an earlier life saved; `boot` is what a first start finds. */
    constructor (me: nat, peers: nat, disk: Saved, ghost gone: Log)
      requires disk.logs != [] && |gone| == disk.snapIndex
      ensures Valid() && this.me == me && this.peers == peers
      ensures View() == Restart(Disk(disk.term, disk.vote, gone + disk.logs, disk.snapIndex, disk.snapshot))
    {
      this.me, this.peers := me, peers;
      role := Follower;
      currentTerm, voteFor, logs, snapshotIndex := disk.term, disk.vote, disk.logs, disk.snapIndex;
      snapshot := disk.snapshot;
      commitIndex, lastApplied := 0, 0;
      nextIndex, matchIndex, gotVotes := [], [], 0;
      saved, past, savedPast := disk, gone, gone;
      new;
      if snapshotIndex != 0 {
        commitIndex, lastApplied := snapshotIndex, snapshotIndex;
      }
    }

    method Persist()
      requires Valid()
      modifies this`saved, this`savedPast
      ensures Valid() && View() == RaftPeer.Persist(old(View()))
    {
      saved := Saved(currentTerm, voteFor, logs, snapshotIndex, snapshot);
      savedPast := past;
    }

    method UpdateTermAndBecomeFollower(term: nat)
      requires Valid()
      modifies this
      ensures Valid() && View() == StepDown(old(View()), term)
    {
      currentTerm := term;
      role := Follower;
      voteFor := -1;
      Persist();
      gotVotes := 0;
    }

    // -------------------------------------------------------------- elections

    method StartAElection() returns (args: VoteArgs)
      requires Valid()
      modifies this
      ensures Valid() && View() == StartElection(old(View()), me)
      ensures args == Campaigning(View(), me)
    {
      if role != Leader {
        currentTerm := currentTerm + 1;
        role := Candidate;
        gotVotes := 1;
        voteFor := me;
        Persist();
      }
      assert View().log == old(View()).log;
      args := VoteArgs(currentTerm, me, GetLastLogIndex(), GetLastLogTerm());
    }

    method RequestVote(args: VoteArgs) returns (reply: VoteReply)
      requires Valid()
      modifies this
      ensures Valid() && (View(), reply) == OnRequestVote(old(View()), args)
    {
      reply := VoteReply(currentTerm, false);
      if args.term < currentTerm {
        return;
      }
      if args.term > currentTerm {
        UpdateTermAndBecomeFollower(args.term);
        reply := VoteReply(currentTerm, false);
      }
      if voteFor != -1 && voteFor != args.cand {
        return;
      }
      if voteFor == args.cand {
        reply := reply.(granted := true);
        return;
      }
      if args.lastTerm > GetLastLogTerm() {
        reply := reply.(granted := true);
        voteFor := args.cand;
        Persist();
        return;
      } else if args.lastTerm < GetLastLogTerm() {
        return;
      }
      if args.lastIndex >= GetLastLogIndex() {
        reply := reply.(granted := true);
        voteFor := args.cand;
        Persist();
      }
    }

    /** nextIndex starts after the last entry, matchIndex at 0 except for the leader itself. */
    method FreshIndexes(last: nat) returns (next: seq<int>, matched: seq<int>)
      ensures next == seq(peers, _ => last + 1) && matched == seq(peers, i => if i == me then last else 0)
    {
      next, matched := [], [];
      while |next| < peers
        invariant |next| == |matched| <= peers
        invariant forall k :: 0 <= k < |next| ==> next[k] == last + 1 && matched[k] == if k == me then last else 0
      {
        next := next + [last + 1];
        matched := matched + [if |matched| == me then last else 0];
      }
    }

    method Crown()
      requires Valid()
      modifies this
      ensures Valid() && View() == RaftPeer.Persist(old(View()).(role := Leader, votes := 0, vote := -1))
    {
      gotVotes := 0;
      role := Leader;
      voteFor := -1;
      Persist();
    }

    method BecomeLeader()
      requires Valid() && gotVotes > peers / 2 && role == Candidate
      modifies this
      ensures Valid() && View() == RaftPeer.BecomeLeader(old(View()), me, peers)
    {
      Crown();
      nextIndex, matchIndex := FreshIndexes(GetLastLogIndex());
    }

    /** The part of sendRequestVote() that runs once a reply has arrived. */
    method HandleVoteReply(asked: nat, reply: VoteReply)
      requires Valid()
      modifies this
      ensures Valid() && View() == OnVoteReply(old(View()), me, peers, asked, reply)
    {
      if asked < currentTerm || reply.term < currentTerm {
        return;
      }
      if reply.term > currentTerm {
        UpdateTermAndBecomeFollower(reply.term);
        return;
      }
      if role == Candidate && reply.granted && gotVotes > 0 {
        gotVotes := gotVotes + 1;
        if gotVotes > peers / 2 {
          BecomeLeader();
        }
      }
    }

    // -------------------------------------------------------------- replication

    method AppendEntries(args: AppendArgs) returns (reply: AppendReply)
      requires Valid()
      modifies this
      ensures Valid() && (View(), reply) == OnAppendEntries(old(View()), args)
    {
      var term := currentTerm;
      if args.term < currentTerm {
        return AppendReply(term, false, 0, 0, 0);
      }
      if args.term > currentTerm || role != Follower {
        UpdateTermAndBecomeFollower(args.term);
      }
      if args.prevIndex < snapshotIndex || args.prevIndex > GetLastLogIndex() || At(args.prevIndex).term != args.prevTerm {
        reply := Reject(term, args);
      } else {
        Accept(args);
        reply := AppendReply(term, true, 0, 0, 0);
      }
    }

    method Reject(term: nat, args: AppendArgs) returns (reply: AppendReply)
      requires Valid() && !Matches(View(), args)
      ensures reply == Rejection(View(), term, args)
    {
      if args.prevIndex < snapshotIndex {
        return AppendReply(term, false, -1, -1, snapshotIndex + 1);
      }
      if args.prevIndex > GetLastLogIndex() {
        return AppendReply(term, false, -1, -1, |logs| + snapshotIndex);
      }
      var prev: nat := args.prevIndex;
      var x := prev;
      while x > snapshotIndex && At(x).term == At(prev).term
        invariant snapshotIndex <= x <= prev
        invariant Backup(View().log, prev, snapshotIndex, At(prev).term) == Backup(View().log, x, snapshotIndex, At(prev).term)
      {
        x := x - 1;
      }
      if x == snapshotIndex {
        return AppendReply(term, false, -1, -1, snapshotIndex + 1);
      }
      return AppendReply(term, false, At(prev).term, x + 1, -1);
    }

    method Accept(args: AppendArgs)
      requires Valid() && Matches(View(), args)
      modifies this
      ensures Valid() && View() == AcceptEntries(old(View()), args)
    {
      MergeEntries(args.prevIndex + 1, args.entries);
      if args.commit > commitIndex {
        commitIndex := if args.commit < GetLastLogIndex() then args.commit else GetLastLogIndex();
      }
      Persist();
    }

    /** Find the first entry that is missing or differs, cut there and append the rest. */
    method MergeEntries(at: nat, entries: seq<Entry>)
      requires Valid() && snapshotIndex < at <= GetLastLogIndex() + 1
      modifies this`logs
      ensures Valid() && past + logs == Merge(old(past + logs), at, entries)
    {
      var local := at;
      var entry := 0;
      ghost var full := past + logs;
      while local <= GetLastLogIndex() && entry < |entries| && At(local).term == entries[entry].term
        invariant snapshotIndex < local <= GetLastLogIndex() + 1
        invariant 0 <= entry <= |entries|
        invariant Merge(full, at, entries) == Merge(full, local, entries[entry..])
      {
        local := local + 1;
        entry := entry + 1;
      }
      if entry < |entries| {
        assert full[..local] == past + logs[..local - snapshotIndex];
        logs := logs[..local - snapshotIndex] + entries[entry..];
        assert past + logs == full[..local] + entries[entry..];
      }
    }

    method LastIndexForTerm(term: int) returns (i: nat)
      requires Valid()
      ensures i == RaftPeer.LastIndexForTerm(View().log, LastIndex(View().log), snapshotIndex, term)
    {
      i := GetLastLogIndex();
      while i > snapshotIndex
        invariant snapshotIndex <= i <= GetLastLogIndex()
        invariant RaftPeer.LastIndexForTerm(View().log, LastIndex(View().log), snapshotIndex, term)
               == RaftPeer.LastIndexForTerm(View().log, i, snapshotIndex, term)
      {
        if At(i).term == term {
          return;
        }
        i := i - 1;
      }
      i := 0;
    }

    /** The part of sendAppendEntries() that runs once a reply has arrived. */
    method HandleAppendReply(server: nat, args: AppendArgs, reply: AppendReply)
      requires Valid() && args.term <= currentTerm
      requires args.term == currentTerm == reply.term ==> server < |nextIndex| && server < |matchIndex|
      modifies this
      ensures Valid() && View() == OnAppendReply(old(View()), server, args, reply)
    {
      var matchShouldBe := args.prevIndex + |args.entries|;
      var nextShouldBe := matchShouldBe + 1;
      if args.term < currentTerm || reply.term < currentTerm {
        return;
      }
      if reply.term > currentTerm {
        UpdateTermAndBecomeFollower(reply.term);
        return;
      }
      if reply.success {
        nextIndex := nextIndex[server := Max(nextIndex[server], nextShouldBe)];
        matchIndex := matchIndex[server := Max(matchIndex[server], matchShouldBe)];
      } else if reply.xLen != -1 {
        nextIndex := nextIndex[server := reply.xLen];
      } else if reply.xIndex != -1 {
        var index := LastIndexForTerm(reply.xTerm);
        nextIndex := nextIndex[server := if index == 0 then reply.xIndex else index + 1];
      } else {
        assert nextIndex[server := nextIndex[server]] == nextIndex;
      }
    }

    /** The AppendEntries message heartBeat() builds for one peer. */
    method BuildAppend(next: int) returns (args: AppendArgs)
      requires Valid() && snapshotIndex < next <= GetLastLogIndex() + 1
      ensures args == Probe(View(), me, next)
    {
      args := AppendArgs(currentTerm, me, next - 1, At(next - 1).term, logs[next - snapshotIndex..], commitIndex);
      assert (past + logs)[next..] == logs[next - snapshotIndex..];
    }

    method Start(op: Op) returns (index: nat, term: nat, isLeader: bool)
      requires Valid()
      modifies this
      ensures Valid() && View() == Submit(old(View()), op) && isLeader == (old(role) == Leader)
      ensures isLeader ==> index == LastIndex(View().log) && term == currentTerm && View().log[index] == Entry(term, op)
    {
      if role != Leader {
        return 0, 0, false;
      }
      logs := logs + [Entry(currentTerm, op)];
      assert past + logs == old(past + logs) + [Entry(currentTerm, op)];
      Persist();
      return GetLastLogIndex(), currentTerm, true;
    }

    // -------------------------------------------------------------- commit, apply, snapshot

    /** One round of commit(). */
    method Commit()
      requires Valid() && role == Leader && me < |matchIndex|
      requires forall i :: 0 <= i < |matchIndex| && i != me ==> matchIndex[i] < |View().log|
      requires snapshotIndex <= commitIndex
      modifies this
      ensures Valid() && View() == AdvanceCommit(old(View()), me)
    {
      matchIndex := matchIndex[me := GetLastLogIndex()];
      var sorted := Sorted(matchIndex);
      var majorityIndex := sorted[|sorted| / 2];
      MedianIsElement(matchIndex);
      if majorityIndex > commitIndex && At(majorityIndex).term == currentTerm {
        commitIndex := majorityIndex;
      }
    }

    /** One round of apply(): everything committed and not yet applied, in order. */
    method Apply() returns (msgs: seq<ApplyMsg>)
      requires Valid() && snapshotIndex <= lastApplied <= commitIndex <= GetLastLogIndex()
      modifies this
      ensures Valid() && msgs == Deliverable(old(View())) && View() == Deliver(old(View()))
    {
      msgs := [];
      var i := lastApplied + 1;
      while i <= commitIndex
        invariant lastApplied + 1 <= i <= commitIndex + 1
        invariant |msgs| == i - lastApplied - 1
        invariant forall k :: 0 <= k < |msgs| ==> msgs[k] == ApplyMsg(lastApplied + 1 + k, View().log[lastApplied + 1 + k].op)
      {
        msgs := msgs + [ApplyMsg(i, At(i).op)];
        i := i + 1;
      }
      lastApplied := commitIndex;
    }

    /** The service asks to trim through index; an index beyond the log is fatal. */
    method Snapshot(index: nat, data: Table) returns (fatal: bool)
      requires Valid()
      modifies this
      ensures Valid() && fatal == (old(snapshotIndex) <= index && index >= |old(View()).log|)
      ensures View() == if fatal then old(View()) else if index < old(snapshotIndex) then old(View())
                        else TakeSnapshot(old(View()), index, data)
    {
      if index < snapshotIndex {
        return false;
      }
      if index > GetLastLogIndex() {
        return true;
      }
      ghost var full := past + logs;
      var cut := index - snapshotIndex;
      past := past + logs[..cut];
      logs := logs[cut..];
      assert past + logs == full;
      snapshotIndex := index;
      snapshot := data;
      Persist();
      return false;
    }
  }
}
