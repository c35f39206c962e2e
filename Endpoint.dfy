/**
 * The connection step both apps share (`_connect_to`): check the node the
 * scheduler names, wait for the Jupyter URL in the job's log, then derive
 * the port to forward and the URL to open locally. Also the session
 * screen's tunnel, which is stopped only while it is still alive.
 */
module Endpoint {
  import opened Wrappers
  import opened Text
  import opened Validators

  /** How many times the job's log is searched for a URL. */
  const MaxAttempts := 30

  /**
   * What the `i`-th look at the job's log finds: the stripped output of
   * `get_jupyter_url`, given as the sequence of the successive answers;
   * answers past its end are blank.
   */
  function Answer(answers: seq<string>, i: nat): string {
    if i < |answers| then answers[i] else []
  }

  /** The first non-blank answer from attempt `i` on, within the budget, or blank. */
  function FirstUrl(answers: seq<string>, i: nat): (url: string)
    ensures url != [] ==> exists k :: i <= k < MaxAttempts && url == Answer(answers, k)
    decreases MaxAttempts - i
  {
    if i >= MaxAttempts then []
    else if Answer(answers, i) != [] then Answer(answers, i)
    else FirstUrl(answers, i + 1)
  }

  /** How many attempts the wait makes: up to the first non-blank answer, or all of them. */
  function Attempts(answers: seq<string>, i: nat): (n: nat)
    requires i <= MaxAttempts
    ensures i <= n <= MaxAttempts
    decreases MaxAttempts - i
  {
    if i == MaxAttempts then i
    else if Answer(answers, i) != [] then i + 1
    else Attempts(answers, i + 1)
  }

  /**
   * The retry loop: read an answer, stop at the first non-blank one. The
   * two-second pause between attempts is left out.
   */
  method WaitForUrl(answers: seq<string>) returns (url: string, attempts: nat)
    ensures url == FirstUrl(answers, 0) && attempts == Attempts(answers, 0)
    ensures 1 <= attempts <= MaxAttempts
    ensures url != [] ==> url == Answer(answers, attempts - 1)
    ensures forall k :: 0 <= k < attempts - 1 ==> Answer(answers, k) == []
    ensures url == [] ==> attempts == MaxAttempts && forall k :: 0 <= k < MaxAttempts ==> Answer(answers, k) == []
  {
    url := [];
    attempts := 0;
    while attempts < MaxAttempts && url == []
      invariant 0 <= attempts <= MaxAttempts
      invariant url == [] ==> FirstUrl(answers, 0) == FirstUrl(answers, attempts)
      invariant url == [] ==> Attempts(answers, 0) == Attempts(answers, attempts)
      invariant url == [] ==> forall k :: 0 <= k < attempts ==> Answer(answers, k) == []
      invariant url != [] ==> 1 <= attempts && url == Answer(answers, attempts - 1)
      invariant url != [] ==> url == FirstUrl(answers, 0) && attempts == Attempts(answers, 0)
      invariant url != [] ==> forall k :: 0 <= k < attempts - 1 ==> Answer(answers, k) == []
      decreases MaxAttempts - attempts
    {
      AttemptStep(answers, attempts);
      url := Answer(answers, attempts);
      attempts := attempts + 1;
    }
  }

  /** One attempt: a blank answer passes on to the next, another one ends the wait. */
  lemma AttemptStep(answers: seq<string>, i: nat)
    requires i < MaxAttempts
    ensures Answer(answers, i) == [] ==> FirstUrl(answers, i) == FirstUrl(answers, i + 1) && Attempts(answers, i) == Attempts(answers, i + 1)
    ensures Answer(answers, i) != [] ==> FirstUrl(answers, i) == Answer(answers, i) && Attempts(answers, i) == i + 1
  {
  }

  /** The `re.search(r":(\d+)(?=/)", url)` scan: the digits after the first colon that has digits and then a slash. */
  function PortSearch(url: string): (r: Option<string>)
    ensures r.Some? ==> IsDigits(r.value)
    decreases |url|
  {
    if url == [] then None
    else if url[0] == ':' && 0 < DigitRun(url[1..]) && 1 + DigitRun(url[1..]) < |url|
      && url[1 + DigitRun(url[1..])] == '/' then
      Some(url[1..1 + DigitRun(url[1..])])
    else PortSearch(url[1..])
  }

  /** The port to forward: the one in the URL, else the app's default. */
  function PortOf(url: string, default: nat): nat {
    match PortSearch(url)
    case Some(d) => DigitsValue(d)
    case None => default
  }

  const Scheme := "http://"

  const LocalPrefix := "http://localhost:"

  /** Where the first `http://[^:]*:` at or after `i` starts, when there is one. */
  function HostFrom(url: string, i: nat): (r: Option<nat>)
    requires i <= |url|
    ensures r.Some? ==> (i <= r.value && r.value + 7 <= |url| && url[r.value..r.value + 7] == Scheme
      && IndexFrom(url, r.value + 7, ':') < |url|)
    decreases |url| - i
  {
    if |url| < i + 7 then None
    else if url[i..i + 7] == Scheme && IndexFrom(url, i + 7, ':') < |url| then Some(i)
    else HostFrom(url, i + 1)
  }

  function HostStart(url: string): Option<nat> { HostFrom(url, 0) }

  /** `re.sub(r"http://[^:]*:", "http://localhost:", url, count=1)`. */
  function LocalUrl(url: string): string {
    match HostStart(url)
    case None => url
    case Some(i) => url[..i] + LocalPrefix + url[IndexFrom(url, i + 7, ':') + 1..]
  }

  /** A colon-free stretch in front changes neither scan. */
  lemma {:induction false} PortSearchSkip(a: string, b: string)
    requires NoChar(a, ':')
    ensures PortSearch(a + b) == PortSearch(b)
    decreases |a|
  {
    if a != [] {
      assert (a + b)[0] == a[0];
      assert (a + b)[1..] == a[1..] + b;
      PortSearchSkip(a[1..], b);
    } else {
      assert a + b == b;
    }
  }

  /** The URL Jupyter prints, `http://host:port/rest`. */
  function JupyterUrl(host: string, port: string, rest: string): string {
    Scheme + host + ":" + port + rest
  }

  predicate WellFormedUrl(host: string, port: string, rest: string) {
    NoChar(host, ':') && IsDigits(port) && rest != [] && rest[0] == '/'
  }

  /** The port of such a URL is the one it names. */
  lemma PortOfJupyterUrl(host: string, port: string, rest: string, default: nat)
    requires WellFormedUrl(host, port, rest)
    ensures PortOf(JupyterUrl(host, port, rest), default) == DigitsValue(port)
  {
    var tail := ":" + port + rest;
    PortAt(tail, port, rest);
    var url := JupyterUrl(host, port, rest);
    assert url == "http" + (":" + ("//" + host + tail));
    PortSearchSkip("http", ":" + ("//" + host + tail));
    assert (":" + ("//" + host + tail))[1..] == "//" + host + tail;
    PortSearchSkip("//" + host, tail);
  }

  lemma PortAt(tail: string, port: string, rest: string)
    requires tail == ":" + port + rest && IsDigits(port) && rest != [] && rest[0] == '/'
    ensures PortSearch(tail) == Some(port)
  {
    assert tail[1..] == port + rest;
    DigitRunConcat(port, rest);
    assert tail[1..1 + |port|] == port;
  }

  /** Its local URL has `localhost` in place of the host and keeps the rest. */
  lemma LocalOfJupyterUrl(host: string, port: string, rest: string)
    requires WellFormedUrl(host, port, rest)
    ensures LocalUrl(JupyterUrl(host, port, rest)) == JupyterUrl("localhost", port, rest)
  {
    UrlShape(host, port, rest);
    LocalAt(JupyterUrl(host, port, rest), host + ([':'] + (port + rest)), host, port + rest);
    UrlShape("localhost", port, rest);
  }

  lemma UrlShape(host: string, port: string, rest: string)
    ensures JupyterUrl(host, port, rest) == Scheme + (host + ([':'] + (port + rest)))
    ensures Scheme + "localhost" + ":" == LocalPrefix
  {
  }

  lemma LocalAt(url: string, after: string, host: string, tail: string)
    requires url == Scheme + after && after == host + ([':'] + tail) && NoChar(host, ':')
    ensures LocalUrl(url) == LocalPrefix + tail
  {
    HostAtStart(url, after, host, tail);
    assert url[7 + |host| + 1..] == tail;
    assert url[..0] + LocalPrefix == LocalPrefix;
  }

  lemma HostAtStart(url: string, after: string, host: string, tail: string)
    requires url == Scheme + after && after == host + ([':'] + tail) && NoChar(host, ':')
    ensures HostStart(url) == Some(0) && IndexFrom(url, 7, ':') == 7 + |host|
  {
    assert url[..7] == Scheme;
    assert url[7 + |host|] == ':';
    assert forall m :: 7 <= m < 7 + |host| ==> url[m] == host[m - 7];
    IndexFromAt(url, 7, ':', 7 + |host|);
  }

  /** Rewriting the host never changes the port that is forwarded. */
  lemma LocalKeepsPort(host: string, port: string, rest: string, default: nat)
    requires WellFormedUrl(host, port, rest)
    ensures PortOf(LocalUrl(JupyterUrl(host, port, rest)), default) == PortOf(JupyterUrl(host, port, rest), default)
  {
    LocalOfJupyterUrl(host, port, rest);
    PortOfJupyterUrl(host, port, rest, default);
    PortOfJupyterUrl("localhost", port, rest, default);
  }

  /** A URL with no colon at all keeps the default port and is opened as it is. */
  lemma NoColonUrl(url: string, default: nat)
    requires NoChar(url, ':')
    ensures PortOf(url, default) == default && LocalUrl(url) == url
  {
    PortSearchSkip(url, []);
    assert url + [] == url;
    NoHost(url);
  }

  lemma NoHost(url: string)
    requires NoChar(url, ':')
    ensures HostStart(url) == None
  {
    NoHostFrom(url, 0);
  }

  lemma {:induction false} NoHostFrom(url: string, i: nat)
    requires NoChar(url, ':') && i <= |url|
    ensures HostFrom(url, i) == None
    decreases |url| - i
  {
    if i + 7 <= |url| {
      NoHostFrom(url, i + 1);
    }
  }

  /** How the connection step ends. */
  datatype Connection =
    | NoNode
    | NoJupyter
    | Session(node: string, url: string, localUrl: string, port: nat)

  /** The node must be a plain name before it is put into the tunnel command. */
  predicate NodeUsable(node: string) { node != [] && IsName(node) }

  /** `_connect_to`, given the node query's answer and the successive URL answers. */
  function ConnectOutcome(node: string, answers: seq<string>, default: nat): Connection {
    if !NodeUsable(node) then NoNode
    else
      var url := FirstUrl(answers, 0);
      if url == [] then NoJupyter
      else Session(node, url, LocalUrl(url), PortOf(url, default))
  }

  /** `_connect_to`: how many URL queries it makes, and where it ends. */
  method ConnectTo(node: string, answers: seq<string>, default: nat) returns (outcome: Connection, attempts: nat)
    ensures outcome == ConnectOutcome(node, answers, default)
    ensures !NodeUsable(node) ==> attempts == 0
    ensures NodeUsable(node) ==> attempts == Attempts(answers, 0)
  {
    if node == [] || !IsName(node) {
      return NoNode, 0;
    }
    var url;
    url, attempts := WaitForUrl(answers);
    if url == [] {
      return NoJupyter, attempts;
    }
    var port := PortOf(url, default);
    var localUrl := LocalUrl(url);
    outcome := Session(node, url, localUrl, port);
  }

  /** A session is opened only on a usable node and a URL that was found. */
  lemma SessionNeedsUrl(node: string, answers: seq<string>, default: nat)
    ensures ConnectOutcome(node, answers, default).Session? <==> NodeUsable(node) && FirstUrl(answers, 0) != []
    ensures ConnectOutcome(node, answers, default).Session? ==>
      ConnectOutcome(node, answers, default).url in answers[..if |answers| < MaxAttempts then |answers| else MaxAttempts]
  {
    var url := FirstUrl(answers, 0);
    if url != [] {
      var k :| 0 <= k < MaxAttempts && url == Answer(answers, k);
      var m := if |answers| < MaxAttempts then |answers| else MaxAttempts;
      assert k < m && answers[..m][k] == url;
    }
  }

  /** Answers after the thirtieth are never looked at. */
  lemma {:induction false} BudgetBound(answers: seq<string>, extra: seq<string>, i: nat)
    requires |answers| == MaxAttempts && i <= MaxAttempts
    ensures FirstUrl(answers + extra, i) == FirstUrl(answers, i)
    ensures Attempts(answers + extra, i) == Attempts(answers, i)
    decreases MaxAttempts - i
  {
    if i < MaxAttempts {
      assert Answer(answers + extra, i) == Answer(answers, i);
      BudgetBound(answers, extra, i + 1);
    }
  }

  /** The SSH tunnel process, `Popen` of the forwarding command. */
  class Tunnel {
    /** `poll() is None`: the process has not exited. */
    var alive: bool
    /** How many times it was sent a termination request. */
    var signals: nat

    constructor ()
      ensures alive && signals == 0
    {
      alive := true;
      signals := 0;
    }

    /** `terminate()`: send the request; the process exits on its own time. */
    method Terminate()
      modifies this
      ensures signals == old(signals) + 1 && alive == old(alive)
    {
      signals := signals + 1;
    }

    /** The process exits, after a request or on its own. */
    method Exit()
      modifies this
      ensures !alive && signals == old(signals)
    {
      alive := false;
    }
  }

  /** The session screen: the tunnel it started, if starting it did not fail. */
  class SessionScreen {
    const tunnel: Tunnel?
    var open: bool

    constructor (tunnel: Tunnel?)
      ensures this.tunnel == tunnel && open
    {
      this.tunnel := tunnel;
      open := true;
    }

    /**
     * `_cleanup`, and the disconnect action that calls it and leaves the
     * screen: a tunnel is signalled only if there is one and it is alive.
     */
    method Disconnect()
      modifies this, tunnel
      ensures !open
      ensures tunnel != null ==> tunnel.alive == old(tunnel.alive)
      ensures tunnel != null ==> tunnel.signals == old(tunnel.signals) + (if old(tunnel.alive) then 1 else 0)
    {
      if tunnel != null && tunnel.alive {
        tunnel.Terminate();
      }
      open := false;
    }
  }
}
