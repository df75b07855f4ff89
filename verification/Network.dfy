// Port-43 traffic: an adversarial world, the history of what was sent to it, and retries.
module Network {
  import opened Wrappers

  datatype WhoisError =
    | InvalidDomain | UnsupportedIpAddress | UnsupportedTld(tld: string)
    | Timeout | IoError | ResponseTooLarge | InvalidUtf8 | Internal

  // A query attempt carries the text sent to the server; a probe only connects.
  datatype Event = Query(server: string, text: string) | Probe(server: string)

  type History = seq<Event>

  type Reply = Result<string, WhoisError>

  // What the network answers may depend on everything sent before.
  datatype World = World(reply: (History, Event) -> Reply, up: (History, string) -> bool)

  datatype Traced<T> = Traced(value: T, log: History)

  const MAX_RETRY_ATTEMPTS: nat := 3

  predicate Transient(e: WhoisError) { e.Timeout? || e.IoError? }

  // execute_whois_query: transient failures are retried up to the given number of times.
  function Retried(w: World, log: History, server: string, text: string, retries: nat): Traced<Reply>
    decreases retries
  {
    var reply := w.reply(log, Query(server, text));
    var sent := log + [Query(server, text)];
    if reply.Failure? && Transient(reply.error) && retries > 0 then Retried(w, sent, server, text, retries - 1)
    else Traced(reply, sent)
  }

  function RawQuery(w: World, log: History, server: string, text: string): Traced<Reply> {
    Retried(w, log, server, text, MAX_RETRY_ATTEMPTS)
  }

  // Number of query attempts in a history.
  function Queries(log: History): nat {
    if log == [] then 0 else Queries(log[..|log| - 1]) + if log[|log| - 1].Query? then 1 else 0
  }

  lemma QueriesSnoc(log: History, e: Event)
    ensures Queries(log + [e]) == Queries(log) + if e.Query? then 1 else 0
  {
    assert (log + [e])[..|log|] == log;
  }

  // The log ends with the exchange that produced the data.
  ghost predicate OwnReply(w: World, log: History, server: string, text: string, data: string) {
    && log != []
    && log[|log| - 1] == Query(server, text)
    && w.reply(log[..|log| - 1], Query(server, text)) == Success(data)
  }

  // The attempts of one retried query: the first comes at once, every attempt but the last
  // failed transiently, the last gave the reply, and a transient failure used up all retries.
  ghost predicate RetryTrace(w: World, log: History, server: string, text: string, retries: nat, r: Traced<Reply>) {
    && log < r.log && |r.log| - |log| <= retries + 1
    && (forall i :: |log| <= i < |r.log| ==> r.log[i] == Query(server, text))
    && (forall i :: |log| <= i < |r.log| - 1 ==>
          w.reply(r.log[..i], Query(server, text)).Failure? && Transient(w.reply(r.log[..i], Query(server, text)).error))
    && w.reply(r.log[..|r.log| - 1], Query(server, text)) == r.value
    && (r.value.Failure? && Transient(r.value.error) ==> |r.log| - |log| == retries + 1)
  }

  lemma {:induction false} RetriedTrace(w: World, log: History, server: string, text: string, retries: nat)
    ensures RetryTrace(w, log, server, text, retries, Retried(w, log, server, text, retries))
    decreases retries
  {
    var sent := log + [Query(server, text)];
    assert sent[..|log|] == log;
    var reply := w.reply(log, Query(server, text));
    if reply.Failure? && Transient(reply.error) && retries > 0 {
      RetriedTrace(w, sent, server, text, retries - 1);
      RetryTraceCons(w, log, server, text, retries, Retried(w, sent, server, text, retries - 1));
    }
  }

  lemma RetryTraceCons(w: World, log: History, server: string, text: string, retries: nat, r: Traced<Reply>)
    requires retries > 0 && RetryTrace(w, log + [Query(server, text)], server, text, retries - 1, r)
    requires w.reply(log, Query(server, text)).Failure? && Transient(w.reply(log, Query(server, text)).error)
    ensures RetryTrace(w, log, server, text, retries, r)
  {
    var sent := log + [Query(server, text)];
    assert r.log[..|sent|] == sent;
    assert r.log[..|log|] == sent[..|log|] == log;
    assert r.log[|log|] == sent[|log|];
  }

  // A query is sent up to four times: again after a timeout or an I/O error and after nothing
  // else, and what it returns is the reply to the last attempt.
  lemma RawQueryAttempts(w: World, log: History, server: string, text: string)
    ensures var q, ask := RawQuery(w, log, server, text), Query(server, text);
            && log <= q.log && 1 <= |q.log| - |log| <= 4
            && (forall i :: |log| <= i < |q.log| ==> q.log[i] == ask)
            && (forall i :: |log| <= i < |q.log| - 1 ==> w.reply(q.log[..i], ask) in [Failure(Timeout), Failure(IoError)])
            && q.value == w.reply(q.log[..|q.log| - 1], ask)
            && (q.value in [Failure(Timeout), Failure(IoError)] ==> |q.log| - |log| == 4)
  {
    RetriedTrace(w, log, server, text, MAX_RETRY_ATTEMPTS);
  }

  lemma {:induction false} SameQueries(log: History, sent: History)
    requires log <= sent && forall i :: |log| <= i < |sent| ==> sent[i].Query?
    ensures Queries(sent) == Queries(log) + (|sent| - |log|)
    decreases |sent|
  {
    if |sent| == |log| {
      assert sent == log;
    } else {
      SameQueries(log, sent[..|sent| - 1]);
    }
  }

  lemma RetriedIsOwnReply(w: World, log: History, server: string, text: string, retries: nat)
    ensures var r := Retried(w, log, server, text, retries);
            && log <= r.log
            && Queries(log) < Queries(r.log) <= Queries(log) + retries + 1
            && (r.value.Success? ==> OwnReply(w, r.log, server, text, r.value.value))
  {
    RetriedTrace(w, log, server, text, retries);
    SameQueries(log, Retried(w, log, server, text, retries).log);
  }
}
