/** One analysis: requests to the model, in rounds as long as it asks for tools. */
module Conversations {
  import opened Base

  datatype Stop = Refused | WantsTools | Ended

  /** What a request comes back with. */
  datatype Reply = Failure | Message(stop: Stop, text: string)

  /** What the user's side of the conversation consists of. */
  datatype Part = Prompt(text: string) | ToolResult(of: Reply) | LastRound

  datatype Turn = User(parts: seq<Part>) | Assistant(reply: Reply)

  /** The model's replies, one per request, and the toolbox; `clean` trims an answer and cuts it to length. */
  datatype Session = Session(prompt: string, useTools: bool, maxSteps: int, replies: nat -> Reply, clean: string -> string)

  datatype Request = Request(turns: seq<Turn>, toolsOff: bool)

  /** The model asked for tools, and may have them. */
  predicate GoesOn(s: Session, round: nat) {
    s.replies(round).Message? && s.replies(round).stop == WantsTools && s.useTools && round < s.maxSteps
  }

  /** The user's side of round `round`. */
  function Results(s: Session, round: nat): Turn {
    User([ToolResult(s.replies(round))] + if round + 1 >= s.maxSteps then [LastRound] else [])
  }

  function Outcome(s: Session, r: Reply): Option<string> {
    if r.Failure? || r.stop == Refused || s.clean(r.text) == "" then None else Some(s.clean(r.text))
  }

  /** What request `k` carries, if it comes to that. */
  function Asked(s: Session, k: nat): Request {
    if k == 0 then Request([User([Prompt(s.prompt)])], false)
    else Request(Asked(s, k - 1).turns + [Assistant(s.replies(k - 1)), Results(s, k - 1)], Asked(s, k - 1).toolsOff || k >= s.maxSteps)
  }

  lemma AskedFirst(s: Session)
    ensures Asked(s, 0) == Request([User([Prompt(s.prompt)])], false)
  {
  }

  lemma AskedNext(s: Session, k: nat, results: seq<Part>)
    requires results == [ToolResult(s.replies(k))] + (if k + 1 >= s.maxSteps then [LastRound] else [])
    ensures Asked(s, k + 1)
      == Request(Asked(s, k).turns + [Assistant(s.replies(k))] + [User(results)], Asked(s, k).toolsOff || k + 1 >= s.maxSteps)
  {
    hide Asked;
    var a, b := Assistant(s.replies(k)), User(results);
    assert (Asked(s, k).turns + [a]) + [b] == Asked(s, k).turns + [a, b];
    AskedIs(s, k + 1);
  }

  lemma AskedIs(s: Session, k: nat)
    requires k > 0
    ensures Asked(s, k)
      == Request(Asked(s, k - 1).turns + [Assistant(s.replies(k - 1)), Results(s, k - 1)], Asked(s, k - 1).toolsOff || k >= s.maxSteps)
  {
  }

  /** `requests` are the requests sent, in order. */
  method Converse(s: Session) returns (answer: Option<string>, requests: seq<Request>)
    ensures |requests| > 0 && answer == Outcome(s, s.replies(|requests| - 1))
    ensures forall k :: 0 <= k < |requests| ==> requests[k] == Asked(s, k) && (GoesOn(s, k) <==> k < |requests| - 1)
  {
    hide Asked;
    AskedFirst(s);
    requests := [];
    var turns, toolsOff, round := [User([Prompt(s.prompt)])], false, 0;
    while true
      invariant |requests| == round && Asked(s, round) == Request(turns, toolsOff)
      invariant forall k :: 0 <= k < round ==> requests[k] == Asked(s, k) && GoesOn(s, k)
      decreases s.maxSteps - round
    {
      requests := requests + [Request(turns, toolsOff)];
      var msg := s.replies(round);
      if msg.Failure? || msg.stop == Refused {
        return None, requests;
      }
      if !(msg.stop == WantsTools && s.useTools && round < s.maxSteps) {
        var text := s.clean(msg.text);
        return if text == "" then None else Some(text), requests;
      }
      var results := [ToolResult(msg)];
      if round + 1 >= s.maxSteps {
        results := results + [LastRound];
        toolsOff := true;
      }
      AskedNext(s, round, results);
      turns := turns + [Assistant(msg)] + [User(results)];
      round := round + 1;
    }
  }

  /** The requests of a whole conversation, the last of which was number `last`. */
  ghost predicate Ran(s: Session, last: nat) {
    !GoesOn(s, last) && forall k :: 0 <= k < last ==> GoesOn(s, k)
  }

  /** Every conversation ends. */
  lemma {:induction false} ItEnds(s: Session, k: nat)
    requires forall i: nat :: i < k ==> GoesOn(s, i)
    ensures exists last: nat :: k <= last && Ran(s, last)
    decreases s.maxSteps - k
  {
    if GoesOn(s, k) {
      ItEnds(s, k + 1);
    } else {
      assert Ran(s, k);
    }
  }

  /** What was said stays said: every request repeats the one before word for word and adds to it. */
  lemma {:induction false} OnlyGrows(s: Session, i: nat, j: nat)
    requires i <= j
    ensures Asked(s, i).turns <= Asked(s, j).turns && |Asked(s, j).turns| == 2 * j + 1
    decreases j
  {
    if j > 0 {
      OnlyGrows(s, if i < j then i else j - 1, j - 1);
    }
  }

  /** The two sides take turns, the user first and last. */
  lemma {:induction false} SidesAlternate(s: Session, k: nat, i: nat)
    requires i < |Asked(s, k).turns|
    ensures Asked(s, k).turns[i].User? <==> i % 2 == 0
    decreases k
  {
    if k > 0 {
      OnlyGrows(s, k - 1, k - 1);
      if i < |Asked(s, k - 1).turns| {
        SidesAlternate(s, k - 1, i);
      }
    }
  }

  lemma {:induction false} OffFrom(s: Session, k: nat)
    ensures Asked(s, k).toolsOff <==> k > 0 && k >= s.maxSteps
    decreases k
  {
    if k > 0 {
      OffFrom(s, k - 1);
    }
  }

  ghost predicate SaysLastRound(t: Turn) {
    t.User? && LastRound in t.parts
  }

  lemma {:induction false} SaidOnce(s: Session, k: nat, i: nat)
    requires i < |Asked(s, k).turns|
    ensures SaysLastRound(Asked(s, k).turns[i]) <==> i >= 2 && i % 2 == 0 && i / 2 >= s.maxSteps
    decreases k
  {
    if k > 0 {
      OnlyGrows(s, k - 1, k - 1);
      if i < |Asked(s, k - 1).turns| {
        SaidOnce(s, k - 1, i);
      } else if i == 2 * k {
        assert Asked(s, k).turns[i] == Results(s, k - 1);
      }
    }
  }

  /**
   * A conversation has at most maxSteps rounds of tool calls. Tools are turned off exactly in the request after the
   * last round there may be, and that request, and no other turn, says so at its end.
   */
  lemma AtMostMaxStepsRounds(s: Session, last: nat, k: nat)
    requires Ran(s, last) && k <= last
    ensures last <= if s.maxSteps > 0 then s.maxSteps else 0
    ensures Asked(s, k).toolsOff <==> k == s.maxSteps && k > 0
    ensures forall i :: 0 <= i < |Asked(s, k).turns| ==>
      (SaysLastRound(Asked(s, k).turns[i]) <==> Asked(s, k).toolsOff && i == |Asked(s, k).turns| - 1)
  {
    assert last > 0 ==> GoesOn(s, last - 1);
    OffFrom(s, k);
    OnlyGrows(s, k, k);
    forall i | 0 <= i < |Asked(s, k).turns|
      ensures SaysLastRound(Asked(s, k).turns[i]) <==> Asked(s, k).toolsOff && i == |Asked(s, k).turns| - 1
    {
      SaidOnce(s, k, i);
    }
  }

  /** What the model sees in request k: the prompt, and after every reply of its own what the tools made of it. */
  lemma {:induction false} EveryReplyIsAnswered(s: Session, k: nat, i: nat)
    requires i < k
    ensures |Asked(s, k).turns| == 2 * k + 1 && Asked(s, k).turns[0] == User([Prompt(s.prompt)])
    ensures Asked(s, k).turns[2 * i + 1] == Assistant(s.replies(i))
    ensures Asked(s, k).turns[2 * i + 2].User?
    ensures var parts := Asked(s, k).turns[2 * i + 2].parts;
      parts == [ToolResult(s.replies(i))] || parts == [ToolResult(s.replies(i)), LastRound]
    decreases k
  {
    OnlyGrows(s, k - 1, k - 1);
    OnlyGrows(s, 0, k);
    if i < k - 1 {
      EveryReplyIsAnswered(s, k - 1, i);
    }
  }

  /**
   * It goes on as long as the model asks for tools, may have them and has rounds left. Its last reply is the answer, unless
   * the request failed, the model refused, or nothing is left of the text.
   */
  lemma EndsWithTheAnswer(s: Session, last: nat)
    requires Ran(s, last)
    ensures forall k :: 0 <= k < last ==> s.replies(k).Message? && s.replies(k).stop == WantsTools
    ensures last > 0 ==> s.useTools
    ensures s.replies(last).Message? && s.replies(last).stop == WantsTools ==> !s.useTools || last >= s.maxSteps
    ensures Outcome(s, s.replies(last)) ==
      match s.replies(last)
      case Failure => None
      case Message(stop, text) => if stop != Refused && s.clean(text) != "" then Some(s.clean(text)) else None
  {
    forall k | 0 <= k < last ensures s.replies(k).Message? && s.replies(k).stop == WantsTools {
      assert GoesOn(s, k);
    }
    assert last > 0 ==> GoesOn(s, last - 1);
  }
}
