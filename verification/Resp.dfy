/**
 The Redis wire protocol as the client speaks it: writing commands and reading replies.
 One character stands for one byte.
 */
module Resp {
  import opened Jobs
  import opened Decimal

  /** A reply as a server means it (Redis serialization protocol, version 2). */
  datatype Reply =
    | Simple(line: string)
    | Error(message: string)
    | Integer(i: int)
    | Bulk(text: string)
    | NullBulk
    | Array(items: seq<Reply>)
    | NullArray

  /** A reply as the client hands it on. */
  datatype Value = Nil | Str(text: string) | Number(i: int) | Values(items: seq<Value>)

  datatype ReadError = EndOfInput | ErrorReply(message: string) | BadNumber | UnknownPrefix(prefix: char)

  /** The outcome of reading one reply: its value or an error, and the input left unread. */
  datatype Read<+T> = Ok(value: T, rest: string) | Fail(error: ReadError, rest: string)

  // ----- writing -----

  const CRLF: string := ['\r', '\n']

  function Encode(r: Reply): string
    decreases r, 0
  {
    match r
    case Simple(line) => "+" + line + CRLF
    case Error(message) => "-" + message + CRLF
    case Integer(i) => ":" + Itoa(i) + CRLF
    case Bulk(text) => "$" + Itoa(|text|) + CRLF + text + CRLF
    case NullBulk => "$" + Itoa(-1) + CRLF
    case Array(items) => "*" + Itoa(|items|) + CRLF + EncodeAll(items)
    case NullArray => "*" + Itoa(-1) + CRLF
  }

  function EncodeAll(items: seq<Reply>): string
    decreases items, 1
  {
    if items == [] then "" else Encode(items[0]) + EncodeAll(items[1..])
  }

  /** A command is an array of bulk strings. */
  function Command(args: seq<string>): Reply {
    Array(seq(|args|, i requires 0 <= i < |args| => Bulk(args[i])))
  }

  lemma {:induction false} EncodeAllAppend(a: seq<Reply>, b: seq<Reply>)
    ensures EncodeAll(a + b) == EncodeAll(a) + EncodeAll(b)
  {
    if a == [] {
      assert a + b == b;
    } else {
      assert (a + b)[1..] == a[1..] + b;
      EncodeAllAppend(a[1..], b);
    }
  }

  lemma OneMoreArgument(args: seq<string>, k: nat, header: string)
    requires k < |args|
    ensures
      var items := Command(args).items;
      header + EncodeAll(items[..k]) + "$" + Itoa(|args[k]|) + CRLF + args[k] + CRLF == header + EncodeAll(items[..k + 1])
  {
    var items := Command(args).items;
    assert items[..k + 1] == items[..k] + [items[k]];
    EncodeAllAppend(items[..k], [items[k]]);
    assert [items[k]][1..] == [];
    assert EncodeAll([items[k]]) == Encode(Bulk(args[k]));
  }

  /** Writes a command argument by argument; embedded CR and LF need no escaping. */
  method WriteCommand(args: seq<string>) returns (out: string)
    ensures out == Encode(Command(args))
  {
    out := "*" + Itoa(|args|) + CRLF;
    ghost var header := out;
    for k := 0 to |args|
      invariant out == header + EncodeAll(Command(args).items[..k])
    {
      OneMoreArgument(args, k, header);
      out := out + "$" + Itoa(|args[k]|) + CRLF + args[k] + CRLF;
    }
    assert Command(args).items[..|args|] == Command(args).items;
  }

  // ----- reading -----

  /** The input before and after the first line feed. */
  function SplitLine(s: string): (r: Option<(string, string)>)
    ensures r.Some? ==> |r.value.1| < |s|
  {
    if s == "" then None
    else if s[0] == '\n' then Some(("", s[1..]))
    else Before([s[0]], SplitLine(s[1..]))
  }

  function Before(text: string, line: Option<(string, string)>): Option<(string, string)> {
    if line.None? then None else Some((text + line.value.0, line.value.1))
  }

  lemma BeforeTwice(a: string, b: string, line: Option<(string, string)>)
    ensures Before(a, Before(b, line)) == Before(a + b, line)
    ensures Before("", line) == line
  {
    if line.Some? {
      assert a + (b + line.value.0) == a + b + line.value.0;
      assert "" + line.value.0 == line.value.0;
    }
  }

  function TrimCR(line: string): string {
    if line != "" && line[|line| - 1] == '\r' then line[..|line| - 1] else line
  }

  function ReadValue(s: string): (r: Read<Value>)
    ensures r.Ok? ==> |r.rest| < |s|
    ensures |r.rest| <= |s|
    decreases |s|, 0
  {
    if s == "" then Fail(EndOfInput, "")
    else
      var split := SplitLine(s[1..]);
      if split.None? then Fail(EndOfInput, "")
      else
        var line, rest := TrimCR(split.value.0), split.value.1;
        match s[0]
        case '+' => Ok(Str(line), rest)
        case '-' => Fail(ErrorReply(line), rest)
        case ':' =>
          var n := ParseInt(line);
          if n.None? then Fail(BadNumber, rest) else Ok(Number(n.value), rest)
        case '$' =>
          var n := ParseInt(line);
          if n.None? then Fail(BadNumber, rest)
          else if n.value < 0 then Ok(Nil, rest)
          else if |rest| < n.value + 2 then Fail(EndOfInput, "")
          else Ok(Str(rest[..n.value]), rest[n.value + 2..])
        case '*' =>
          var n := ParseInt(line);
          if n.None? then Fail(BadNumber, rest)
          else if n.value < 0 then Ok(Nil, rest)
          else
            var items := ReadValues(rest, n.value);
            if items.Fail? then Fail(items.error, items.rest) else Ok(Values(items.value), items.rest)
        case c => Fail(UnknownPrefix(c), rest)
  }

  /** Reads so many values one after the other; the count may exceed what the input holds. */
  function ReadValues(s: string, n: nat): (r: Read<seq<Value>>)
    ensures |r.rest| <= |s|
    decreases |s|, 1
  {
    if n == 0 then Ok([], s)
    else
      var first := ReadValue(s);
      if first.Fail? then Fail(first.error, first.rest)
      else Prepend([first.value], ReadValues(first.rest, n - 1))
  }

  function Prepend(vs: seq<Value>, r: Read<seq<Value>>): Read<seq<Value>> {
    if r.Fail? then r else Ok(vs + r.value, r.rest)
  }

  /** A buffered reader over finite input. */
  class Reader {
    var unread: string

    constructor (input: string)
      ensures unread == input
    {
      unread := input;
    }

    /** Reads up to and including a line feed; without one, everything is consumed. */
    method ReadLine() returns (line: Option<string>)
      modifies this
      ensures SplitLine(old(unread)).None? ==> line.None? && unread == ""
      ensures SplitLine(old(unread)).Some? ==>
                line == Some(SplitLine(old(unread)).value.0) && unread == SplitLine(old(unread)).value.1
    {
      var text := "";
      BeforeTwice("", "", SplitLine(unread));
      while unread != ""
        invariant SplitLine(old(unread)) == Before(text, SplitLine(unread))
        decreases |unread|
      {
        var c := unread[0];
        unread := unread[1..];
        if c == '\n' {
          assert text + "" == text;
          return Some(text);
        }
        BeforeTwice(text, [c], SplitLine(unread));
        text := text + [c];
      }
      line := None;
    }

    /** Reads one reply, whatever lengths the input declares. */
    method ReadRESP() returns (r: Read<Value>)
      modifies this
      ensures r == ReadValue(old(unread)) && unread == r.rest
      decreases |unread|, 0
    {
      if unread == "" { return Fail(EndOfInput, unread); }
      var prefix := unread[0];
      unread := unread[1..];
      var raw := ReadLine();
      if raw.None? { return Fail(EndOfInput, unread); }
      var line := TrimCR(raw.value);
      match prefix {
        case '+' => r := Ok(Str(line), unread);
        case '-' => r := Fail(ErrorReply(line), unread);
        case ':' =>
          var n := ParseInt(line);
          r := if n.None? then Fail(BadNumber, unread) else Ok(Number(n.value), unread);
        case '$' =>
          var n := ParseInt(line);
          if n.None? { return Fail(BadNumber, unread); }
          if n.value < 0 { return Ok(Nil, unread); }
          if |unread| < n.value + 2 {
            unread := "";
            return Fail(EndOfInput, unread);
          }
          var text := unread[..n.value];
          unread := unread[n.value + 2..];
          r := Ok(Str(text), unread);
        case '*' =>
          var n := ParseInt(line);
          if n.None? { return Fail(BadNumber, unread); }
          if n.value < 0 { return Ok(Nil, unread); }
          var items := ReadArray(n.value);
          r := if items.Fail? then Fail(items.error, items.rest) else Ok(Values(items.value), items.rest);
        case c => r := Fail(UnknownPrefix(c), unread);
      }
    }

    /** Fills an array with the next n replies, stopping at the first error. */
    method ReadArray(n: nat) returns (r: Read<seq<Value>>)
      modifies this
      ensures r == ReadValues(old(unread), n) && unread == r.rest
      decreases |unread|, 1
    {
      var arr := new Value[n](_ => Nil);
      PrependTwice([], [], ReadValues(unread, n));
      ghost var whole := ReadValues(unread, n);
      for i := 0 to n
        invariant |unread| <= |old(unread)|
        invariant whole == Prepend(arr[..i], ReadValues(unread, n - i))
      {
        ghost var before, left := arr[..i], unread;
        var v := ReadRESP();
        ReadOneMore(before, left, n - i, v);
        if v.Fail? { return Fail(v.error, v.rest); }
        arr[i] := v.value;
        assert arr[..i + 1] == before + [v.value];
      }
      ReadNoMore(arr[..n], unread);
      assert arr[..n] == arr[..];
      r := Ok(arr[..], unread);
    }
  }

  lemma PrependTwice(a: seq<Value>, b: seq<Value>, r: Read<seq<Value>>)
    ensures Prepend(a, Prepend(b, r)) == Prepend(a + b, r)
    ensures Prepend([], r) == r
  {
    if r.Ok? {
      assert a + (b + r.value) == a + b + r.value;
      assert [] + r.value == r.value;
    }
  }

  lemma ReadNoMore(done: seq<Value>, s: string)
    ensures Prepend(done, ReadValues(s, 0)) == Ok(done, s)
  {
    assert done + [] == done;
  }

  lemma ReadOneMore(done: seq<Value>, s: string, n: nat, first: Read<Value>)
    requires n > 0 && first == ReadValue(s)
    ensures Prepend(done, ReadValues(s, n)) ==
            if first.Fail? then Fail(first.error, first.rest)
            else Prepend(done + [first.value], ReadValues(first.rest, n - 1))
  {
    if first.Ok? {
      PrependTwice(done, [first.value], ReadValues(first.rest, n - 1));
    }
  }

  // ----- what a reply means to the caller -----

  predicate OneLine(line: string) { '\r' !in line && '\n' !in line }

  /** Replies a server may send: one-line statuses, 64-bit integers and 64-bit lengths. */
  predicate WellFormed(r: Reply)
    decreases r, 0
  {
    match r
    case Simple(line) => OneLine(line)
    case Error(message) => OneLine(message)
    case Integer(i) => InInt64(i)
    case Bulk(text) => InInt64(|text|)
    case Array(items) => InInt64(|items|) && AllWellFormed(items)
    case NullBulk => true
    case NullArray => true
  }

  predicate AllWellFormed(items: seq<Reply>)
    decreases items, 1
  {
    items == [] || (WellFormed(items[0]) && AllWellFormed(items[1..]))
  }

  /** The first error reply met from left to right, at any depth. */
  function FirstError(r: Reply): Option<string>
    decreases r, 0
  {
    match r
    case Error(message) => Some(message)
    case Array(items) => FirstErrorOf(items)
    case Simple(_) => None
    case Integer(_) => None
    case Bulk(_) => None
    case NullBulk => None
    case NullArray => None
  }

  function FirstErrorOf(items: seq<Reply>): Option<string>
    decreases items, 1
  {
    if items == [] then None
    else if FirstError(items[0]).Some? then FirstError(items[0])
    else FirstErrorOf(items[1..])
  }

  /** The value of a reply without errors: status and bulk text become strings, both nulls become nil. */
  function Meaning(r: Reply): Value
    requires FirstError(r).None?
    decreases r, 0
  {
    match r
    case Simple(line) => Str(line)
    case Integer(i) => Number(i)
    case Bulk(text) => Str(text)
    case NullBulk => Nil
    case Array(items) => Values(MeaningOf(items))
    case NullArray => Nil
  }

  function MeaningOf(items: seq<Reply>): (vs: seq<Value>)
    requires FirstErrorOf(items).None?
    ensures |vs| == |items|
    decreases items, 1
  {
    if items == [] then [] else [Meaning(items[0])] + MeaningOf(items[1..])
  }

  // ----- round trip -----

  lemma {:induction false} SplitLineAt(line: string, rest: string)
    requires '\n' !in line
    ensures SplitLine(line + ['\n'] + rest) == Some((line, rest))
  {
    var s := line + ['\n'] + rest;
    if line == "" {
      assert s == ['\n'] + rest;
    } else {
      assert s[1..] == line[1..] + ['\n'] + rest;
      SplitLineAt(line[1..], rest);
      assert [line[0]] + line[1..] == line;
    }
  }

  /** What the reader sees of a prefix byte, a line and what follows. */
  lemma HeaderReads(prefix: char, line: string, body: string, suffix: string)
    requires '\n' !in line
    ensures
      var s := [prefix] + line + CRLF + body + suffix;
      s[0] == prefix && SplitLine(s[1..]) == Some((line + ['\r'], body + suffix)) && TrimCR(line + ['\r']) == line
  {
    var s := [prefix] + line + CRLF + body + suffix;
    assert s[1..] == line + ['\r'] + ['\n'] + (body + suffix);
    SplitLineAt(line + ['\r'], body + suffix);
    assert (line + ['\r'])[..|line|] == line;
  }

  lemma ItoaIsOneLine(i: int)
    ensures '\n' !in Itoa(i)
  {
  }

  /**
   Reading what a server wrote: a reply without errors yields its meaning and leaves exactly what
   followed it; a reply holding an error reply, at any depth, fails with the first one.
   */
  lemma {:induction false} RoundTrip(r: Reply, suffix: string)
    requires WellFormed(r)
    ensures FirstError(r).None? ==> ReadValue(Encode(r) + suffix) == Ok(Meaning(r), suffix)
    ensures FirstError(r).Some? ==>
              ReadValue(Encode(r) + suffix).Fail? &&
              ReadValue(Encode(r) + suffix).error == ErrorReply(FirstError(r).value)
    decreases r, 0
  {
    match r {
      case Simple(line) => StatusReads(line, suffix);
      case Error(message) => ErrorReads(message, suffix);
      case Integer(i) => IntegerReads(i, suffix);
      case NullBulk => NullReads(r, '$', suffix);
      case NullArray => NullReads(r, '*', suffix);
      case Bulk(text) => BulkReads(text, suffix);
      case Array(items) =>
        RoundTripAll(items, suffix);
        ArrayReads(items, suffix);
    }
  }

  lemma LineReplyReads(r: Reply, prefix: char, line: string, suffix: string)
    requires '\n' !in line && Encode(r) == [prefix] + line + CRLF
    ensures var s := Encode(r) + suffix;
            s != "" && s[0] == prefix && SplitLine(s[1..]) == Some((line + ['\r'], suffix)) && TrimCR(line + ['\r']) == line
  {
    HeaderReads(prefix, line, "", suffix);
    assert [prefix] + line + CRLF + "" + suffix == Encode(r) + suffix;
    assert "" + suffix == suffix;
  }

  lemma StatusReads(line: string, suffix: string)
    requires '\n' !in line
    ensures ReadValue(Encode(Simple(line)) + suffix) == Ok(Str(line), suffix)
  {
    LineReplyReads(Simple(line), '+', line, suffix);
  }

  lemma ErrorReads(message: string, suffix: string)
    requires '\n' !in message
    ensures ReadValue(Encode(Error(message)) + suffix) == Fail(ErrorReply(message), suffix)
  {
    LineReplyReads(Error(message), '-', message, suffix);
  }

  lemma IntegerReads(i: int, suffix: string)
    requires InInt64(i)
    ensures ReadValue(Encode(Integer(i)) + suffix) == Ok(Number(i), suffix)
  {
    ItoaIsOneLine(i);
    ParseReadsItoa(i);
    LineReplyReads(Integer(i), ':', Itoa(i), suffix);
  }

  lemma NullReads(r: Reply, prefix: char, suffix: string)
    requires (r == NullBulk && prefix == '$') || (r == NullArray && prefix == '*')
    ensures ReadValue(Encode(r) + suffix) == Ok(Nil, suffix)
  {
    ItoaIsOneLine(-1);
    ParseReadsItoa(-1);
    LineReplyReads(r, prefix, Itoa(-1), suffix);
  }

  lemma BulkReads(text: string, suffix: string)
    requires InInt64(|text|)
    ensures ReadValue(Encode(Bulk(text)) + suffix) == Ok(Str(text), suffix)
  {
    var n, body := Itoa(|text|), text + CRLF;
    ItoaIsOneLine(|text|);
    ParseReadsItoa(|text|);
    HeaderReads('$', n, body, suffix);
    assert Encode(Bulk(text)) + suffix == ['$'] + n + CRLF + body + suffix;
    var rest := body + suffix;
    assert rest[..|text|] == text && rest[|text| + 2..] == suffix;
  }

  lemma ArrayReads(items: seq<Reply>, suffix: string)
    requires InInt64(|items|)
    ensures
      var all := ReadValues(EncodeAll(items) + suffix, |items|);
      ReadValue(Encode(Array(items)) + suffix) ==
      if all.Fail? then Fail(all.error, all.rest) else Ok(Values(all.value), all.rest)
  {
    var n, body := Itoa(|items|), EncodeAll(items);
    ItoaIsOneLine(|items|);
    ParseReadsItoa(|items|);
    HeaderReads('*', n, body, suffix);
    assert Encode(Array(items)) + suffix == ['*'] + n + CRLF + body + suffix;
  }

  lemma {:induction false} RoundTripAll(items: seq<Reply>, suffix: string)
    requires AllWellFormed(items)
    ensures FirstErrorOf(items).None? ==>
              ReadValues(EncodeAll(items) + suffix, |items|) == Ok(MeaningOf(items), suffix)
    ensures FirstErrorOf(items).Some? ==>
              ReadValues(EncodeAll(items) + suffix, |items|).Fail? &&
              ReadValues(EncodeAll(items) + suffix, |items|).error == ErrorReply(FirstErrorOf(items).value)
    decreases items, 1
  {
    if items == [] {
      assert EncodeAll(items) + suffix == suffix;
    } else {
      var rest := EncodeAll(items[1..]) + suffix;
      assert EncodeAll(items) + suffix == Encode(items[0]) + rest;
      RoundTrip(items[0], rest);
      RoundTripAll(items[1..], suffix);
    }
  }

  /** The strings of a command as the server reads them back. */
  function Strings(args: seq<string>): seq<Value> {
    seq(|args|, i requires 0 <= i < |args| => Str(args[i]))
  }

  /** Writing a command and reading it back returns the arguments, whatever bytes they hold. */
  lemma CommandRoundTrip(args: seq<string>, suffix: string)
    requires InInt64(|args|) && forall i :: 0 <= i < |args| ==> InInt64(|args[i]|)
    ensures ReadValue(Encode(Command(args)) + suffix) == Ok(Values(Strings(args)), suffix)
  {
    BulksAreWellFormed(args);
    RoundTrip(Command(args), suffix);
  }

  lemma {:induction false} BulksAreWellFormed(args: seq<string>)
    requires forall i :: 0 <= i < |args| ==> InInt64(|args[i]|)
    ensures var items := Command(args).items;
            AllWellFormed(items) && FirstErrorOf(items).None? && MeaningOf(items) == Strings(args)
  {
    if args != [] {
      BulksAreWellFormed(args[1..]);
      assert Command(args).items[1..] == Command(args[1..]).items;
      assert Strings(args) == [Str(args[0])] + Strings(args[1..]);
    }
  }

  // ----- the bytes of each kind of reply, and what reading them gives -----

  lemma LineForms(line: string, rest: string)
    requires OneLine(line)
    ensures ReadValue("+" + line + "\r\n" + rest) == Ok(Str(line), rest)
    ensures ReadValue("-" + line + "\r\n" + rest).Fail?
    ensures ReadValue("-" + line + "\r\n" + rest).error == ErrorReply(line)
  {
    RoundTrip(Simple(line), rest);
    RoundTrip(Error(line), rest);
    assert "\r\n" == CRLF;
  }

  lemma CountedForms(i: int, text: string, rest: string)
    requires InInt64(i) && InInt64(|text|)
    ensures ReadValue(":" + Itoa(i) + "\r\n" + rest) == Ok(Number(i), rest)
    ensures ReadValue("$" + Itoa(|text|) + "\r\n" + text + "\r\n" + rest) == Ok(Str(text), rest)
  {
    RoundTrip(Integer(i), rest);
    RoundTrip(Bulk(text), rest);
    assert "\r\n" == CRLF;
  }

  lemma NullForms(rest: string)
    ensures ReadValue("$-1\r\n" + rest) == ReadValue("*-1\r\n" + rest) == Ok(Nil, rest)
  {
    RoundTrip(NullBulk, rest);
    RoundTrip(NullArray, rest);
    assert Itoa(-1) == "-1" && "$" + "-1" + CRLF == "$-1\r\n" && "*" + "-1" + CRLF == "*-1\r\n";
  }

  /** A command of two arguments, byte by byte. */
  lemma CommandForm(a: string, b: string)
    ensures Encode(Command([a, b])) ==
            "*2\r\n" + "$" + Itoa(|a|) + "\r\n" + a + "\r\n" + "$" + Itoa(|b|) + "\r\n" + b + "\r\n"
  {
    var items := Command([a, b]).items;
    assert items == [Bulk(a), Bulk(b)] && items[1..] == [Bulk(b)] && [Bulk(b)][1..] == [];
    assert Encode(Bulk(a)) == "$" + Itoa(|a|) + "\r\n" + a + "\r\n";
    assert Encode(Bulk(b)) == "$" + Itoa(|b|) + "\r\n" + b + "\r\n";
    assert "*" + Itoa(2) + CRLF == "*2\r\n";
    assert EncodeAll([Bulk(b)]) == Encode(Bulk(b)) + EncodeAll([]);
    assert EncodeAll(items) == Encode(Bulk(a)) + EncodeAll([Bulk(b)]);
    assert EncodeAll(items) == Encode(Bulk(a)) + Encode(Bulk(b));
  }

  // ----- truncated input -----

  lemma {:induction false} SplitLineExtends(s: string, more: string)
    requires SplitLine(s).Some?
    ensures SplitLine(s + more) == Some((SplitLine(s).value.0, SplitLine(s).value.1 + more))
  {
    assert (s + more)[1..] == s[1..] + more;
    if s[0] != '\n' {
      SplitLineExtends(s[1..], more);
    }
  }

  /** A complete reply is read the same way whatever comes after it. */
  lemma {:induction false} ReadExtends(s: string, more: string)
    requires ReadValue(s).Ok?
    ensures ReadValue(s + more) == Ok(ReadValue(s).value, ReadValue(s).rest + more)
    decreases |s|, 0
  {
    assert (s + more)[1..] == s[1..] + more;
    SplitLineExtends(s[1..], more);
    var split := SplitLine(s[1..]).value;
    var line, rest := TrimCR(split.0), split.1;
    if s[0] == '$' && ParseInt(line).value >= 0 {
      var n := ParseInt(line).value;
      assert (rest + more)[..n] == rest[..n];
      assert (rest + more)[n + 2..] == rest[n + 2..] + more;
    } else if s[0] == '*' && ParseInt(line).value >= 0 {
      ReadAllExtends(rest, ParseInt(line).value, more);
    }
  }

  lemma {:induction false} ReadAllExtends(s: string, n: nat, more: string)
    requires ReadValues(s, n).Ok?
    ensures ReadValues(s + more, n) == Ok(ReadValues(s, n).value, ReadValues(s, n).rest + more)
    decreases |s|, 1
  {
    if n > 0 {
      ReadExtends(s, more);
      ReadAllExtends(ReadValue(s).rest, n - 1, more);
    }
  }

  /** No proper prefix of a reply is read as a value, so a broken connection cannot yield one. */
  lemma TruncatedReplyFails(r: Reply, k: nat)
    requires WellFormed(r) && k < |Encode(r)|
    ensures ReadValue(Encode(r)[..k]).Fail?
  {
    var front, back := Encode(r)[..k], Encode(r)[k..];
    if ReadValue(front).Ok? {
      ReadExtends(front, back);
      assert front + back == Encode(r) == Encode(r) + "";
      RoundTrip(r, "");
      assert |ReadValue(front).rest + back| > 0;
    }
  }

  /** After a nested error the rest of the array is still unread, so only closing keeps replies paired. */
  lemma NestedErrorLeavesInput()
    ensures
      var r := Array([Error("E"), Simple("OK")]);
      WellFormed(r) && ReadValue(Encode(r)) == Fail(ErrorReply("E"), Encode(Simple("OK")))
  {
    var items := [Error("E"), Simple("OK")];
    var tail := Encode(Simple("OK"));
    assert items[1..] == [Simple("OK")] && items[1..][1..] == [];
    assert tail + "" == tail;
    assert EncodeAll(items) == Encode(Error("E")) + tail;
    ArrayReads(items, "");
    assert Encode(Array(items)) + "" == Encode(Array(items));
    assert EncodeAll(items) + "" == EncodeAll(items);
    LineReplyReads(Error("E"), '-', "E", tail);
  }
}
