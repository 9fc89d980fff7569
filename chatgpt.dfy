/**
 * The ChatGPT client's decisions: which replies are retried, which abort the program,
 * and how the choices of a successful reply become the translation text.
 * The HTTP exchange is not modelled: each attempt is given as data.
 */
module Chatgpt {
  import opened Wrappers
  import opened Strings

  /** A decoded chat-completion reply: the choices' message contents, or an error with its optional code. */
  datatype Response = Choices(contents: seq<string>) | ApiError(code: Option<nat>)

  /** One request: the transport or decoding failed, or a response was decoded. */
  datatype Attempt = TransportError(message: string) | Received(response: Response)

  datatype Step = Done(contents: seq<string>) | Retry | Fatal(code: nat)

  /** A missing code or a 5xx code is worth another try. */
  predicate Retryable(code: Option<nat>)
  {
    code.None? || 500 <= code.value <= 599
  }

  /** What the retry loop does with a decoded response. */
  function Classify(response: Response): (s: Step)
    ensures s.Done? <==> response.Choices?
    ensures s.Done? ==> s.contents == response.contents
    ensures s.Retry? <==> response.ApiError? && Retryable(response.code)
    ensures s.Fatal? <==> response.ApiError? && !Retryable(response.code)
    ensures s.Fatal? ==> s.code == response.code.value
  {
    match response
    case Choices(contents) => Done(contents)
    case ApiError(code) => if Retryable(code) then Retry else Fatal(code.value)
  }

  /** The translation text: the choices joined by line feeds, with leading and trailing quotes removed. */
  function ReplyText(contents: seq<string>): string
  {
    TrimMatches(Join(contents, '\n'), '"')
  }

  /** The reply text never starts or ends with a quote, and cleaning it again changes nothing. */
  lemma ReplyTextClean(contents: seq<string>)
    ensures var t := ReplyText(contents);
      && (t == [] || (t[0] != '"' && t[|t| - 1] != '"'))
      && TrimMatches(t, '"') == t
  {
    TrimMatchesEnds(Join(contents, '\n'), '"');
    TrimMatchesIdempotent(Join(contents, '\n'), '"');
  }

  /** A lone choice without surrounding quotes is the reply text itself. */
  lemma ReplyTextSingle(content: string)
    requires content == [] || (content[0] != '"' && content[|content| - 1] != '"')
    ensures ReplyText([content]) == content
  {
  }

  /**
   * The choices come back from the reply text, in order, when none contains a line feed
   * or a quote.
   */
  lemma ReplyTextSplits(contents: seq<string>)
    requires |contents| >= 1
    requires forall i :: 0 <= i < |contents| ==> '\n' !in contents[i] && '"' !in contents[i]
    ensures Split(ReplyText(contents), '\n') == contents
  {
    var joined := Join(contents, '\n');
    JoinAvoids(contents, '\n', '"');
    assert joined == [] || (joined[0] in joined && joined[|joined| - 1] in joined);
    assert ReplyText(contents) == joined;
    SplitJoin(contents, '\n');
  }

  lemma {:induction false} JoinAvoids(parts: seq<string>, sep: char, c: char)
    requires c != sep
    requires forall i :: 0 <= i < |parts| ==> c !in parts[i]
    ensures c !in Join(parts, sep)
  {
    if |parts| > 1 {
      JoinAvoids(parts[1..], sep, c);
    }
  }

  /** The end of the exchange: a reply, a failure returned to the caller, a panic, or still retrying. */
  datatype Outcome = Replied(text: string) | Failed(error: string) | Aborted(code: nat) | StillRetrying

  /** What the retry loop makes of a series of attempts. */
  function Settle(attempts: seq<Attempt>): Outcome
  {
    if attempts == [] then StillRetrying
    else match attempts[0]
      case TransportError(message) => Failed(message)
      case Received(response) =>
        match Classify(response)
        case Done(contents) => Replied(ReplyText(contents))
        case Fatal(code) => Aborted(code)
        case Retry => Settle(attempts[1..])
  }

  /** Retryable replies are skipped: they leave no trace in the outcome. */
  lemma {:induction false} SettleSkipsRetries(retried: seq<Attempt>, rest: seq<Attempt>)
    requires forall i :: 0 <= i < |retried| ==> retried[i].Received? && Classify(retried[i].response).Retry?
    ensures Settle(retried + rest) == Settle(rest)
  {
    if retried != [] {
      assert (retried + rest)[0] == retried[0];
      assert (retried + rest)[1..] == retried[1..] + rest;
      SettleSkipsRetries(retried[1..], rest);
    } else {
      assert retried + rest == rest;
    }
  }

  /** A successful exchange ends in a reply whose text is clean. */
  lemma {:induction false} SettleRepliedClean(attempts: seq<Attempt>)
    requires Settle(attempts).Replied?
    ensures var t := Settle(attempts).text; t == [] || (t[0] != '"' && t[|t| - 1] != '"')
  {
    var a := attempts[0];
    if a.Received? && Classify(a.response).Done? {
      assert Settle(attempts) == Replied(ReplyText(a.response.contents));
      ReplyTextClean(a.response.contents);
    } else {
      assert a.Received? && Classify(a.response).Retry?;
      assert Settle(attempts) == Settle(attempts[1..]);
      SettleRepliedClean(attempts[1..]);
    }
  }

  /**
   * `ask_chatgpt`'s loop over successive attempts: a transport error is returned, a
   * reply with choices ends the loop, a retryable error goes round again, any other
   * code panics.
   */
  method AskChatgpt(attempts: seq<Attempt>) returns (o: Outcome)
    ensures o == Settle(attempts)
  {
    var i := 0;
    while i < |attempts|
      invariant 0 <= i <= |attempts|
      invariant Settle(attempts) == Settle(attempts[i..])
    {
      match attempts[i]
      case TransportError(message) =>
        return Failed(message);
      case Received(response) =>
        match Classify(response)
        case Done(contents) =>
          return Replied(ReplyText(contents));
        case Fatal(code) =>
          return Aborted(code);
        case Retry =>
          assert attempts[i..][1..] == attempts[i + 1..];
      i := i + 1;
    }
    return StillRetrying;
  }
}
