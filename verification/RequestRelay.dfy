/** The loops that pass channel and global requests from one connection to another. */
module RequestRelay {
  import opened Prelude

  datatype Request = Request(kind: Bytes, wantReply: bool, payload: Bytes)

  /** "exit-status" */
  const EXIT_STATUS: Bytes := [101, 120, 105, 116, 45, 115, 116, 97, 116, 117, 115]

  /** The answer to the request with this number; requests are numbered in the order they came. */
  datatype Reply = Reply(to: nat, success: bool, payload: Bytes)

  /** How the far end takes a forwarded request. */
  datatype Outcome = SendFailed | Answered(success: bool, payload: Bytes)

  predicate StopsAfter(r: Request, o: Outcome)
  {
    r.kind == EXIT_STATUS && o.Answered?
  }

  /** Exactly the first `n` requests were tried: up to the end, or up to the first exit status that got through. */
  ghost predicate CutAfterExit(requests: seq<Request>, outcome: nat -> Outcome, n: nat)
  {
    && n <= |requests|
    && (forall i | 0 <= i < n - 1 :: !StopsAfter(requests[i], outcome(i)))
    && (n < |requests| ==> n > 0 && StopsAfter(requests[n - 1], outcome(n - 1)))
  }

  predicate Due(requests: seq<Request>, outcome: nat -> Outcome, i: nat)
  {
    i < |requests| && requests[i].wantReply && outcome(i).Answered?
  }

  /** The answers to the first `n` requests: those that wanted one and got through, in order. */
  function Answers(requests: seq<Request>, outcome: nat -> Outcome, n: nat, payloads: bool): seq<Reply>
  {
    if n == 0 then []
    else
      Answers(requests, outcome, n - 1, payloads)
      + if Due(requests, outcome, n - 1)
        then [Reply(n - 1, outcome(n - 1).success, if payloads then outcome(n - 1).payload else [])] else []
  }

  function Answered(replies: seq<Reply>): set<nat>
  {
    set r | r in replies :: r.to
  }

  lemma AnsweredOneMore(before: seq<Reply>, last: Reply)
    ensures Answered(before + [last]) == Answered(before) + {last.to}
  {
    var now := before + [last];
    assert last in now;
    forall r | r in before ensures r in now && r.to in Answered(now) {
    }
  }

  /** The requests answered are exactly the due ones. */
  lemma {:induction false} DueAreAnswered(requests: seq<Request>, outcome: nat -> Outcome, n: nat, payloads: bool)
    ensures Answered(Answers(requests, outcome, n, payloads)) == set i | 0 <= i < n && Due(requests, outcome, i)
  {
    if n > 0 {
      hide Answered;
      DueAreAnswered(requests, outcome, n - 1, payloads);
      var before, replies := Answers(requests, outcome, n - 1, payloads), Answers(requests, outcome, n, payloads);
      if Due(requests, outcome, n - 1) {
        AnsweredOneMore(before, replies[|before|]);
      } else {
        assert replies == before;
      }
    }
  }

  ghost predicate InOrder(replies: seq<Reply>, outcome: nat -> Outcome, n: nat)
  {
    && (forall k :: 0 <= k < |replies| ==> replies[k].to < n && Verdict(replies[k], outcome))
    && (forall j, k :: 0 <= j < k < |replies| ==> replies[j].to < replies[k].to)
  }

  /** Each once, in the order of the requests, with the far end's verdict. */
  lemma {:induction false} AnswersKeepOrder(requests: seq<Request>, outcome: nat -> Outcome, n: nat, payloads: bool)
    ensures InOrder(Answers(requests, outcome, n, payloads), outcome, n)
  {
    if n > 0 {
      AnswersKeepOrder(requests, outcome, n - 1, payloads);
      var before, replies := Answers(requests, outcome, n - 1, payloads), Answers(requests, outcome, n, payloads);
      if Due(requests, outcome, n - 1) {
        assert replies == before + [replies[|before|]] && Verdict(replies[|before|], outcome);
      } else {
        assert replies == before;
      }
    }
  }

  predicate Verdict(r: Reply, outcome: nat -> Outcome)
  {
    outcome(r.to).Answered? && r.success == outcome(r.to).success
  }

  method ProxyRequests(requests: seq<Request>, outcome: nat -> Outcome)
    returns (sent: seq<Request>, replies: seq<Reply>)
    ensures CutAfterExit(requests, outcome, |sent|) && sent == requests[..|sent|]
    ensures replies == Answers(requests, outcome, |sent|, false)
  {
    sent, replies := [], [];
    for i := 0 to |requests|
      invariant |sent| == i && sent == requests[..i]
      invariant forall j | 0 <= j < i :: !StopsAfter(requests[j], outcome(j))
      invariant replies == Answers(requests, outcome, i, false)
    {
      var request := requests[i];
      sent := sent + [request];
      var result := outcome(i);
      if result.SendFailed? {
        continue;
      }
      if request.wantReply {
        replies := replies + [Reply(i, result.success, [])];
      }
      if request.kind == EXIT_STATUS {
        return;
      }
    }
  }

  /** Global requests are never cut off, and answers carry the far end's payload. */
  method ProxyGlobalRequests(requests: seq<Request>, outcome: nat -> Outcome)
    returns (sent: seq<Request>, replies: seq<Reply>)
    ensures sent == requests
    ensures replies == Answers(requests, outcome, |requests|, true)
  {
    sent, replies := [], [];
    for i := 0 to |requests|
      invariant |sent| == i && sent == requests[..i]
      invariant replies == Answers(requests, outcome, i, true)
    {
      sent := sent + [requests[i]];
      var result := outcome(i);
      if result.SendFailed? {
        continue;
      }
      if requests[i].wantReply {
        replies := replies + [Reply(i, result.success, result.payload)];
      }
    }
  }
}
