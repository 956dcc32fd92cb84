/**
 * One raft node (node/pkg/raft/raft.go): the message handlers, the election timeout and the
 * leader state as functions, and the object whose methods carry them out. Timers and
 * cooldowns are left to the caller: a timeout may come at any time, in any role. Channels
 * are numbered so that closing one twice can be told.
 */
module Raft {
  import opened Wrappers

  const MAX_MISSED_HEARTBEATS: nat := 2

  datatype Role = Leader | Candidate | Follower

  datatype Message =
    | Heartbeat(from: string, leaderId: string, term: int)
    | RequestVote(from: string, term: int)
    | ReplyVote(from: string, granted: bool, leaderId: string)

  datatype Node = Node(
    id: string,
    role: Role,
    votedFor: string,
    leaderId: string,
    votes: nat,
    term: int,
    missed: nat,
    resign: Option<nat>,   // the open resign channel, None for nil
    channels: nat)         // channels made so far

  datatype Error = LeaderIdMismatch

  /** The new state, the message sent, the resign channel closed, the error. */
  datatype Reaction = Reaction(node: Node, out: Option<Message>, closed: Option<nat>, err: Option<Error>)

  function Quiet(n: Node): Reaction { Reaction(n, None, None, None) }

  function NewNode(id: string): Node {
    Node(id, Follower, "", "", 0, 0, 0, Some(0), 1)
  }

  /** Go's < on strings. */
  predicate Less(a: string, b: string) {
    b != [] && (a == [] || a[0] < b[0] || (a[0] == b[0] && Less(a[1..], b[1..])))
  }

  function Resigned(n: Node): Node {
    if n.resign.None? then n else n.(resign := None, role := Follower, leaderId := "")
  }

  function OnHeartbeat(n: Node, from: string, leaderId: string, term: int): Reaction {
    if from == n.id then Quiet(n)
    else if leaderId != from then Reaction(n, None, None, Some(LeaderIdMismatch))
    else
      var n1 := n.(missed := 0);
      if term > n.term then
        var n2 := if n.role == Leader then Resigned(n1) else n1;
        Reaction(n2.(term := term, role := Follower, leaderId := leaderId), None,
                 if n.role == Leader then n.resign else None, None)
      else if term == n.term then
        if n.role == Leader then
          if Less(n.id, leaderId) then Reaction(Resigned(n1).(leaderId := leaderId), None, n.resign, None)
          else Quiet(n1)
        else Quiet(n1.(leaderId := leaderId))
      else Quiet(n1)
  }

  function Reply(n: Node, to: string, granted: bool): Reaction {
    Reaction(n, Some(ReplyVote(n.id, granted, to)), None, None)
  }

  function OnRequestVote(n: Node, from: string, term: int): Reaction {
    if n.role == Leader then Quiet(n)
    else if term < n.term then Reply(n, from, false)
    else
      var n1 := if term > n.term then n.(term := term, role := Follower, votedFor := "") else n;
      if n1.role == Candidate && term == n1.term && from != n.id then Reply(n1.(role := Follower), from, false)
      else if n1.votedFor != "" && n1.votedFor != from then Reply(n1, from, false)
      else Reply(n1.(votedFor := from), from, true)
  }

  function LeaderState(n: Node): Node {
    n.(resign := Some(n.channels), channels := n.channels + 1, term := n.term + 1, role := Leader, leaderId := n.id)
  }

  function OnReplyVote(n: Node, granted: bool, leaderId: string, peers: nat): Reaction {
    if n.role != Candidate || leaderId != n.id || !granted then Quiet(n)
    else
      var n1 := n.(votes := n.votes + 1);
      Quiet(if n1.votes >= (peers + 1) / 2 then LeaderState(n1) else n1)
  }

  function OnElectionTimeout(n: Node, coolingDown: bool): Reaction {
    if n.missed < MAX_MISSED_HEARTBEATS then Quiet(n.(missed := n.missed + 1))
    else if coolingDown then Quiet(n)
    else
      var n1 := n.(term := n.term + 1, votes := 0, role := Candidate, votedFor := n.id, missed := 0);
      Reaction(n1, Some(RequestVote(n.id, n1.term)), None, None)
  }

  /** The heartbeat the leader loop publishes on a tick. */
  function HeartbeatOf(n: Node): Message {
    Heartbeat(n.id, n.id, n.term)
  }

  class RaftNode {
    const id: string
    var role: Role
    var votedFor: string
    var leaderId: string
    var votesReceived: nat
    var term: int
    var missedHeartbeats: nat
    var resign: Option<nat>
    var channels: nat

    ghost function View(): Node
      reads this
    {
      Node(id, role, votedFor, leaderId, votesReceived, term, missedHeartbeats, resign, channels)
    }

    constructor (host: string)
      ensures View() == NewNode(host)
    {
      id := host;
      role, votedFor, leaderId, votesReceived, term := Follower, "", "", 0, 0;
      missedHeartbeats, resign, channels := 0, Some(0), 1;
    }

    method HandleHeartbeat(from: string, leader: string, msgTerm: int)
      returns (closed: Option<nat>, err: Option<Error>)
      modifies this
      ensures Reaction(View(), None, closed, err) == OnHeartbeat(old(View()), from, leader, msgTerm)
    {
      closed, err := None, None;
      if from == id {
        return;
      }
      if leader != from {
        return None, Some(LeaderIdMismatch);
      }
      missedHeartbeats := 0;
      var currentRole, currentTerm := role, term;
      if msgTerm > currentTerm {
        if currentRole == Leader {
          closed := ResignLeader();
        }
        term := msgTerm;
        role := Follower;
        leaderId := leader;
      } else if msgTerm == currentTerm {
        if currentRole == Leader {
          if Less(id, leader) {
            closed := ResignLeader();
            leaderId := leader;
          }
        } else {
          leaderId := leader;
        }
      }
    }

    method ResignLeader() returns (closed: Option<nat>)
      modifies this
      ensures View() == Resigned(old(View())) && closed == old(resign)
    {
      closed := resign;
      if resign != None {
        resign := None;
        role := Follower;
        leaderId := "";
      }
    }

    method HandleRequestVote(from: string, msgTerm: int) returns (out: Option<Message>)
      modifies this
      ensures Reaction(View(), out, None, None) == OnRequestVote(old(View()), from, msgTerm)
    {
      if role == Leader {
        return None;
      }
      if msgTerm < term {
        return Some(ReplyVote(id, false, from));
      }
      if msgTerm > term {
        term := msgTerm;
        role := Follower;
        votedFor := "";
      }
      if role == Candidate && msgTerm == term && from != id {
        role := Follower;
        return Some(ReplyVote(id, false, from));
      }
      if votedFor != "" && votedFor != from {
        return Some(ReplyVote(id, false, from));
      }
      votedFor := from;
      return Some(ReplyVote(id, true, from));
    }

    method HandleReplyVote(granted: bool, leader: string, peers: nat)
      modifies this
      ensures Quiet(View()) == OnReplyVote(old(View()), granted, leader, peers)
    {
      if role != Candidate {
        return;
      }
      if leader != id {
        return;
      }
      if granted && leader == id && role == Candidate {
        votesReceived := votesReceived + 1;
        if votesReceived >= (peers + 1) / 2 {
          SetLeaderState();
        }
      }
    }

    method SetLeaderState()
      modifies this
      ensures View() == LeaderState(old(View()))
    {
      resign := Some(channels);
      channels := channels + 1;
      term := term + 1;
      role := Leader;
      leaderId := id;
    }

    method StartElection(coolingDown: bool) returns (out: Option<Message>)
      modifies this
      ensures Reaction(View(), out, None, None) == OnElectionTimeout(old(View()), coolingDown)
    {
      if missedHeartbeats < MAX_MISSED_HEARTBEATS {
        missedHeartbeats := missedHeartbeats + 1;
        return None;
      }
      if coolingDown {
        return None;
      }
      term := term + 1;
      votesReceived := 0;
      role := Candidate;
      votedFor := id;
      missedHeartbeats := 0;
      return Some(RequestVote(id, term));
    }

    method SendHeartbeat() returns (out: Message)
      ensures out == HeartbeatOf(View())
    {
      out := Heartbeat(id, id, term);
    }
  }
}
