/** The Redis client: one connection, reopened on demand, carrying one command and one reply at a time. */
module RespClient {
  import opened Jobs
  import opened Resp
  import opened Decimal

  /** What became of one write on the connection and of the reply to it. */
  datatype Fate =
    | Written(arrived: nat)      // so many bytes of the reply arrive before the connection is lost, if ever
    | Broken(executed: bool)     // the write failed, before or after the server had the whole command

  datatype Setup = Setup(dialed: bool, auth: Fate, select: Fate)

  datatype DoError = DialFailed | WriteFailed | ReadFailed(error: ReadError)

  datatype Outcome = Got(value: Value) | Refused(error: DoError)

  /** What a caller should see of a reply that arrives whole. */
  function OutcomeOf(r: Reply): Outcome {
    if FirstError(r).Some? then Refused(ReadFailed(ErrorReply(FirstError(r).value))) else Got(Meaning(r))
  }

  /** What a caller sees of a reply: the reply itself if it arrives whole, otherwise a failure. */
  predicate Reacts(answer: Reply, fate: Fate, out: Outcome) {
    match fate
    case Broken(_) => out == Refused(WriteFailed)
    case Written(arrived) =>
      if arrived >= |Encode(answer)| then out == OutcomeOf(answer) else out.Refused? && out.error.ReadFailed?
  }

  /** Reading the bytes that arrived, from an empty buffer, gives that reaction and uses a whole reply up. */
  lemma ReactionReads(answer: Reply, fate: Fate)
    requires WellFormed(answer) && fate.Written?
    ensures
      var text := Encode(answer);
      var r := ReadValue(if fate.arrived < |text| then text[..fate.arrived] else text);
      Reacts(answer, fate, if r.Ok? then Got(r.value) else Refused(ReadFailed(r.error))) &&
      (r.Ok? ==> r == Resp.Ok(Meaning(answer), ""))
  {
    if fate.arrived < |Encode(answer)| {
      TruncatedReplyFails(answer, fate.arrived);
    } else {
      RoundTrip(answer, "");
      assert Encode(answer) + "" == Encode(answer);
    }
  }

  lemma {:induction false} DigitsAreFew(n: nat)
    ensures |Digits(n)| <= if n == 0 then 1 else n
  {
    if n >= 10 { DigitsAreFew(n / 10); }
  }

  /** Arguments whose lengths fit the protocol's 64-bit counts. */
  predicate Sendable(args: seq<string>) {
    InInt64(|args|) && forall i :: 0 <= i < |args| ==> InInt64(|args[i]|)
  }

  function TextOf(v: Value): string {
    if v.Str? then v.text else ""
  }

  /** The arguments of a command as the server decodes them from the bytes it received. */
  function Decoded(bytes: string): Option<seq<string>> {
    var r := ReadValue(bytes);
    if r.Ok? && r.value.Values? && r.rest == "" then
      Some(seq(|r.value.items|, i requires 0 <= i < |r.value.items| => TextOf(r.value.items[i])))
    else None
  }

  lemma DecodedCommand(args: seq<string>)
    requires Sendable(args)
    ensures Decoded(Encode(Command(args))) == Some(args)
  {
    CommandRoundTrip(args, "");
    assert Encode(Command(args)) + "" == Encode(Command(args));
    assert Decoded(Encode(Command(args))).value == args;
  }

  /** The commands a fresh connection starts with. */
  function SetupCommands(password: string, db: int): seq<seq<string>> {
    (if password != "" then [["AUTH", password]] else []) + (if db > 0 then [["SELECT", Itoa(db)]] else [])
  }

  /** A server that answers each command it decodes with one well-formed reply of its choosing. */
  class Server {
    const answer: nat -> Reply
    var log: seq<seq<string>>

    ghost predicate Valid() reads this {
      forall k: nat :: WellFormed(answer(k))
    }

    constructor (answer: nat -> Reply)
      requires forall k: nat :: WellFormed(answer(k))
      ensures Valid() && log == [] && this.answer == answer
    {
      this.answer := answer;
      log := [];
    }

    /** Bytes that decode to a command are logged and answered; others get no answer. */
    method Receive(bytes: string) returns (reply: string)
      modifies this
      ensures Decoded(bytes).Some? ==>
                log == old(log) + [Decoded(bytes).value] && reply == Encode(answer(|old(log)|))
      ensures Decoded(bytes).None? ==> log == old(log) && reply == ""
    {
      var args := Decoded(bytes);
      if args.None? { return ""; }
      reply := Encode(answer(|log|));
      log := log + [args.value];
    }
  }

  class Client {
    const server: Server
    const password: string
    const db: int
    var reader: Reader?

    /** An open connection never holds bytes of an earlier reply. */
    ghost predicate Valid()
      reads this, server, reader
    {
      server.Valid() && InInt64(db) && InInt64(|password|) && (reader != null ==> reader.unread == "")
    }

    constructor (server: Server, password: string, db: int)
      requires server.Valid() && InInt64(db) && InInt64(|password|)
      ensures Valid() && reader == null && this.server == server && this.password == password && this.db == db
    {
      this.server, this.password, this.db, reader := server, password, db, null;
    }

    method CloseLocked()
      modifies this`reader
      ensures reader == null
    {
      reader := null;
    }

    /** Writes a command on the open connection and reads one reply; any failure closes the connection. */
    method Ask(args: seq<string>, fate: Fate) returns (out: Outcome)
      requires Valid() && reader != null && Sendable(args)
      modifies this, reader, server
      ensures Valid() && (out.Got? <==> reader != null) && (reader != null ==> reader == old(reader))
      ensures server.log == old(server.log) + (if fate == Broken(false) then [] else [args])
      ensures Reacts(server.answer(|old(server.log)|), fate, out)
    {
      var bytes := WriteCommand(args);
      DecodedCommand(args);
      if fate.Broken? {
        if fate.executed {
          var lost := server.Receive(bytes);
        }
        CloseLocked();
        return Refused(WriteFailed);
      }
      ghost var answer := server.answer(|server.log|);
      var reply := server.Receive(bytes);
      ReactionReads(answer, fate);
      var delivered := if fate.arrived < |reply| then reply[..fate.arrived] else reply;
      reader.unread := reader.unread + delivered;
      assert reader.unread == delivered;
      var v := reader.ReadRESP();
      if v.Fail? {
        CloseLocked();
        return Refused(ReadFailed(v.error));
      }
      out := Got(v.value);
    }

    /** Opens the connection if there is none, with AUTH and SELECT where they are configured. */
    method EnsureConn(setup: Setup) returns (out: Option<DoError>)
      requires Valid()
      modifies this, reader, server
      ensures Valid() && (out.None? <==> reader != null)
      ensures reader == old(reader) || reader == null || fresh(reader)
      ensures old(reader) != null ==> out.None? && server.log == old(server.log)
      ensures old(server.log) <= server.log
      ensures old(reader) == null && out.None? ==>
                server.log == old(server.log) + SetupCommands(password, db)
      ensures old(reader) == null && out.None? ==>
                var sent := server.log[|old(server.log)|..];
                && (password == "" && db <= 0 ==> sent == [])
                && (password != "" && db <= 0 ==> sent == [["AUTH", password]])
                && (password == "" && db > 0 ==> sent == [["SELECT", Itoa(db)]])
                && (password != "" && db > 0 ==> sent == [["AUTH", password], ["SELECT", Itoa(db)]])
    {
      if reader != null { return None; }
      if !setup.dialed { return Some(DialFailed); }
      reader := new Reader("");
      if password != "" {
        var out := Ask(["AUTH", password], setup.auth);
        if out.Refused? { return Some(out.error); }
      }
      if db > 0 {
        DigitsAreFew(db);
        var out := Ask(["SELECT", Itoa(db)], setup.select);
        if out.Refused? { return Some(out.error); }
      }
      out := None;
    }

    /** Sends one command and returns the reply to it, or an error after which the connection is closed. */
    method Do(args: seq<string>, setup: Setup, fate: Fate) returns (out: Outcome)
      requires Valid() && Sendable(args)
      modifies this, reader, server
      ensures Valid() && (out.Got? <==> reader != null)
      ensures reader == old(reader) || reader == null || fresh(reader)
      ensures old(server.log) <= server.log
      ensures out.Got? && old(reader) == null ==>
                server.log == old(server.log) + SetupCommands(password, db) + [args]
      ensures out.Got? ==>
                |server.log| > |old(server.log)| && server.log[|server.log| - 1] == args &&
                out == OutcomeOf(server.answer(|server.log| - 1))
      ensures old(reader) != null ==>
                server.log == old(server.log) + (if fate == Broken(false) then [] else [args]) &&
                Reacts(server.answer(|old(server.log)|), fate, out)
    {
      var failure := EnsureConn(setup);
      if failure.Some? { return Refused(failure.value); }
      out := Ask(args, fate);
    }
  }

  datatype Call = Call(args: seq<string>, setup: Setup, fate: Fate)

  /** Any run of calls: each value returned is the reply to that very call's command, in order. */
  method RunAll(client: Client, calls: seq<Call>) returns (outs: seq<Outcome>, ghost at: seq<nat>)
    requires client.Valid() && forall i :: 0 <= i < |calls| ==> Sendable(calls[i].args)
    modifies client, client.reader, client.server
    ensures client.Valid() && |outs| == |at| == |calls|
    ensures forall i :: 0 <= i < |calls| && outs[i].Got? ==>
              at[i] < |client.server.log| && client.server.log[at[i]] == calls[i].args &&
              outs[i] == OutcomeOf(client.server.answer(at[i]))
    ensures forall i, j :: 0 <= i < j < |calls| && outs[i].Got? && outs[j].Got? ==> at[i] < at[j]
  {
    outs, at := [], [];
    for k := 0 to |calls|
      invariant client.Valid() && |outs| == |at| == k
      invariant client.reader == old(client.reader) || client.reader == null || fresh(client.reader)
      invariant forall i :: 0 <= i < k && outs[i].Got? ==>
                  at[i] < |client.server.log| && client.server.log[at[i]] == calls[i].args &&
                  outs[i] == OutcomeOf(client.server.answer(at[i]))
      invariant forall i, j :: 0 <= i < j < k && outs[i].Got? && outs[j].Got? ==> at[i] < at[j]
    {
      var out := client.Do(calls[k].args, calls[k].setup, calls[k].fate);
      outs := outs + [out];
      at := at + [if out.Got? then |client.server.log| - 1 else 0];
    }
  }
}
