/**
 The agent's session table: what one command sees of its session, and what a successful command
 leaves behind. Session objects are numbered in the order in which they are created; the table maps
 a session name to the number of its object, the heap holds the objects.
 */
module Sessions {
  import opened Basics

  type Env = map<string, string>

  datatype Session = Session(cwd: string, env: Env)

  /** The parts of the agent's surroundings that `cd` consults: HOME and the agent's own directory. */
  datatype Host = Host(home: string, wd: Option<string>)

  datatype Request = Request(argv: seq<string>, cwd: string, env: Env, session: string)

  datatype Tables = Tables(names: map<string, nat>, heap: seq<Session>)

  const FRESH := Session("", map[])

  /** `cd` is built in, and only when a session can remember it. */
  predicate IsCd(req: Request) {
    req.session != "" && |req.argv| > 0 && req.argv[0] == "cd"
  }

  function EffectiveCwd(req: Request, s: Session): string {
    if req.cwd != "" then req.cwd else s.cwd
  }

  /** The directory and environment a process is started with. */
  function Seen(req: Request, s: Session): Session {
    Session(EffectiveCwd(req, s), s.env + req.env)
  }

  /** The absolute path a `cd` target names, "" when there is none. */
  function ResolveCwd(target: string, cur: string, host: Host): string {
    if target == "" then
      ""
    else if target == "~" || "~/" <= target then
      if host.home == "" then "" else if target == "~" then host.home else host.home + target[1..]
    else if target[0] == '/' then
      target
    else if cur != "" then
      cur + "/" + target
    else if host.wd.None? then
      ""
    else
      host.wd.value + "/" + target
  }

  function CdTarget(host: Host, req: Request, s: Session): string {
    var cur := EffectiveCwd(req, s);
    ResolveCwd(if |req.argv| > 1 then req.argv[1] else cur, cur, host)
  }

  /**
   What `cd` means: absolute targets are taken as they are, others lie below the current directory; without a target
   it stays there.
   */
  lemma CdNames(host: Host, req: Request, s: Session)
    ensures var cur, dir := if req.cwd != "" then req.cwd else s.cwd, CdTarget(host, req, s);
            if |req.argv| <= 1 then
              (cur != "" && cur[0] == '/' ==> dir == cur) && (cur == "" ==> dir == "")
            else
              var target := req.argv[1];
              if target == "" then dir == ""
              else if target[0] == '/' then dir == target
              else if target == "~" || "~/" <= target then
                dir == if host.home == "" then "" else host.home + target[1..]
              else if cur != "" then dir == cur + "/" + target
              else dir == if host.wd.Some? then host.wd.value + "/" + target else ""
  {
  }

  /** The sequential meaning of one command that reported success. */
  function Commit(host: Host, req: Request, s: Session): Session {
    if IsCd(req) then
      s.(cwd := CdTarget(host, req, s))
    else
      Session(if req.cwd != "" then req.cwd else s.cwd, s.env + req.env)
  }

  /** The session `name` refers to, created on first use; the empty name always gets a new, private one. */
  function Resolved(ts: Tables, name: string): (Tables, nat) {
    if name in ts.names then
      (ts, ts.names[name])
    else
      (Tables(if name == "" then ts.names else ts.names[name := |ts.heap|], ts.heap + [FRESH]), |ts.heap|)
  }

  /** What `persistSession` writes, given the directory the command ran in. */
  function Persisted(ts: Tables, req: Request, ranIn: string): Tables {
    if req.session == "" || req.session !in ts.names || ts.names[req.session] >= |ts.heap| then
      ts
    else
      var r := ts.names[req.session];
      var s := ts.heap[r];
      ts.(heap := ts.heap[r := Session(if req.cwd != "" then ranIn else s.cwd, s.env + req.env)])
  }

  /** The agent's fields that belong to sessions, updated in place under `a.mu` or the session's lock. */
  class SessionTable {
    var names: map<string, nat>
    var heap: seq<Session>

    function Value(): Tables
      reads this
    {
      Tables(names, heap)
    }

    constructor ()
      ensures Value() == Tables(map[], [])
    {
      names, heap := map[], [];
    }

    method ResolveSession(name: string) returns (r: nat)
      modifies this
      ensures (Value(), r) == Resolved(old(Value()), name)
    {
      if name in names {
        r := names[name];
      } else {
        r := |heap|;
        heap := heap + [FRESH];
        if name != "" {
          names := names[name := r];
        }
      }
    }

    method PersistSession(req: Request, ranIn: string)
      requires forall n <- names :: names[n] < |heap|
      modifies this
      ensures Value() == Persisted(old(Value()), req, ranIn)
    {
      if req.session == "" || req.session !in names {
        return;
      }
      var r := names[req.session];
      var cwd := if req.cwd != "" then ranIn else heap[r].cwd;
      var env := heap[r].env;
      var left := req.env.Keys;
      while left != {}
        invariant left <= req.env.Keys
        invariant env.Keys == heap[r].env.Keys + (req.env.Keys - left)
        invariant forall k <- env.Keys ::
          env[k] == if k in req.env.Keys - left then req.env[k] else heap[r].env[k]
        decreases |left|
      {
        var k :| k in left;
        env := env[k := req.env[k]];
        left := left - {k};
      }
      assert env == heap[r].env + req.env;
      heap := heap[r := Session(cwd, env)];
    }
  }
}
