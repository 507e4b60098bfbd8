/** The Redis wire format (services/platform/cache/redis.go): what `do` writes and `readReply` reads.
    A `char` stands for one byte. */
module Resp {
  import opened Wrappers

  datatype Reply = Status(text: string) | Number(n: int) | Bulk(bytes: string) | Nil | Array(items: seq<Reply>)

  /** A reply and the bytes that are left, or an error (also a '-' reply is one). */
  datatype Parsed<+T> = Got(value: T, rest: string) | Failed

  const CRLF := "\r\n"
  const MAX_INT := 0x7fff_ffff_ffff_ffff

  // ---- numbers ------------------------------------------------------------------------

  predicate IsDigit(c: char) { '0' <= c <= '9' }

  function Decimal(n: nat): (s: string)
    ensures s != [] && forall i :: 0 <= i < |s| ==> IsDigit(s[i])
  {
    if n < 10 then [('0' as int + n) as char] else Decimal(n / 10) + [('0' as int + n % 10) as char]
  }

  /** fmt's %d. */
  function Format(n: int): string { if n < 0 then "-" + Decimal(-n) else Decimal(n) }

  function Digits(s: string): Option<nat> {
    if s == [] || !IsDigit(s[|s| - 1]) then None
    else
      var last := s[|s| - 1] as int - '0' as int;
      if |s| == 1 then Some(last)
      else match Digits(s[..|s| - 1])
        case None => None
        case Some(n) => Some(10 * n + last)
  }

  /** strconv.Atoi and ParseInt: an optional sign, decimal digits, within int64. */
  function Atoi(s: string): Option<int> {
    var unsigned := if s != [] && (s[0] == '-' || s[0] == '+') then s[1..] else s;
    match Digits(unsigned)
    case None => None
    case Some(n) =>
      var v: int := if s[0] == '-' then -(n as int) else n as int;
      if -MAX_INT - 1 <= v <= MAX_INT then Some(v) else None
  }

  lemma {:induction false} DigitsOfDecimal(n: nat)
    ensures Digits(Decimal(n)) == Some(n)
  {
    if n >= 10 {
      DigitsOfDecimal(n / 10);
      assert Decimal(n)[..|Decimal(n)| - 1] == Decimal(n / 10);
    }
  }

  lemma AtoiOfFormat(n: int)
    ensures Atoi(Format(n)) == if -MAX_INT - 1 <= n <= MAX_INT then Some(n) else None
  {
    DigitsOfDecimal(if n < 0 then -n else n);
    assert n < 0 ==> Format(n)[1..] == Decimal(-n);
    assert n >= 0 ==> IsDigit(Format(n)[0]);
  }

  lemma {:induction false} DigitsIff(s: string)
    ensures Digits(s).Some? <==> s != [] && forall i :: 0 <= i < |s| ==> IsDigit(s[i])
  {
    if |s| > 1 { DigitsIff(s[..|s| - 1]); }
  }

  /** A number is an optional sign and at least one digit, and nothing else. */
  lemma AtoiRejects(s: string)
    ensures Atoi(s).Some? ==>
      var digits := if s != [] && s[0] in {'-', '+'} then s[1..] else s;
      digits != [] && (forall i :: 0 <= i < |digits| ==> '0' <= digits[i] <= '9') && (s[0] == '-' ==> Atoi(s).value <= 0) && (s[0] != '-' ==> Atoi(s).value >= 0)
  {
    DigitsIff(if s != [] && (s[0] == '-' || s[0] == '+') then s[1..] else s);
  }

  // ---- lines ---------------------------------------------------------------------------

  /** ReadString('\n'): up to and including the first newline. */
  function Line(s: string): Option<string> {
    if s == [] then None
    else if s[0] == '\n' then Some([s[0]])
    else match Line(s[1..])
      case None => None
      case Some(l) => Some([s[0]] + l)
  }

  /** strings.TrimRight(line, "\r\n"). */
  function Trim(s: string): string {
    if s != [] && (s[|s| - 1] == '\r' || s[|s| - 1] == '\n') then Trim(s[..|s| - 1]) else s
  }

  /** Text that survives a line: no newline inside, no carriage return at its end. */
  predicate Clean(s: string) { '\n' !in s && (s != [] ==> s[|s| - 1] != '\r') }

  lemma {:induction false} LineIsPrefix(s: string)
    ensures Line(s).Some? ==> Line(s).value != [] && Line(s).value <= s
  {
    if s != [] && s[0] != '\n' { LineIsPrefix(s[1..]); }
  }

  /** A line goes up to the first newline, if there is one. */
  lemma {:induction false} LineIs(s: string)
    ensures Line(s).Some? <==> '\n' in s
    ensures Line(s).Some? ==> var l := Line(s).value; l != [] && l <= s && l[|l| - 1] == '\n' && '\n' !in l[..|l| - 1]
  {
    if s != [] && s[0] != '\n' {
      LineIs(s[1..]);
      assert s == [s[0]] + s[1..];
      if Line(s[1..]).Some? {
        var rest := Line(s[1..]).value;
        assert ([s[0]] + rest)[..|rest|] == [s[0]] + rest[..|rest| - 1];
      }
    }
  }

  lemma {:induction false} LineOf(text: string, tail: string)
    requires '\n' !in text
    ensures Line(text + CRLF + tail) == Some(text + CRLF)
  {
    var s := text + CRLF + tail;
    if text == [] {
      assert s == CRLF + tail && s[1..] == "\n" + tail && text + CRLF == CRLF;
      assert Line("\n" + tail) == Some("\n");
      assert "\r" + "\n" == CRLF;
    } else {
      assert s[1..] == text[1..] + CRLF + tail;
      LineOf(text[1..], tail);
      assert [text[0]] + (text[1..] + CRLF) == text + CRLF;
    }
  }

  lemma TrimOf(text: string)
    requires Clean(text)
    ensures Trim(text + CRLF) == text
  {
    assert text + CRLF == text + "\r" + "\n";
    TrimNext(text + "\r", '\n');
    TrimNext(text, '\r');
  }

  lemma TrimNext(text: string, c: char)
    requires c == '\r' || c == '\n'
    ensures Trim(text + [c]) == Trim(text)
  {
    assert (text + [c])[..|text|] == text;
  }

  // ---- readReply ---------------------------------------------------------------------------

  /** readReply. A bulk length that no memory holds fails like a short read, also one above MAX_INT - 2, where the
      source's n+2 overflows and `make` panics. */
  function Parse(s: string): (r: Parsed<Reply>)
    ensures r.Got? ==> |r.rest| < |s|
    decreases |s|, 0
  {
    LineIsPrefix(s);
    match Line(s)
    case None => Failed
    case Some(full) =>
      var line, rest := Trim(full), s[|full|..];
      if line == [] then Failed
      else if line[0] == '+' then Got(Status(line[1..]), rest)
      else if line[0] == ':' then
        match Atoi(line[1..])
        case None => Failed
        case Some(n) => Got(Number(n), rest)
      else if line[0] == '$' then
        match Atoi(line[1..])
        case None => Failed
        case Some(n) =>
          if n < 0 then Got(Nil, rest)
          else if |rest| < n + 2 then Failed
          else Got(Bulk(rest[..n]), rest[n + 2..])
      else if line[0] == '*' then
        match Atoi(line[1..])
        case None => Failed
        case Some(n) =>
          if n < 0 then Got(Nil, rest)
          else match ParseItems(rest, n)
            case Failed => Failed
            case Got(items, after) => Got(Array(items), after)
      else Failed
  }

  function ParseItems(s: string, n: nat): (r: Parsed<seq<Reply>>)
    ensures r.Got? ==> |r.rest| <= |s|
    decreases |s|, 1
  {
    if n == 0 then Got([], s)
    else match Parse(s)
      case Failed => Failed
      case Got(first, rest) =>
        match ParseItems(rest, n - 1)
        case Failed => Failed
        case Got(others, after) => Got([first] + others, after)
  }

  // ---- writing ----------------------------------------------------------------------------

  function Header(kind: char, n: int): string { [kind] + Format(n) + CRLF }

  /** The wire form of a reply. */
  function Encode(r: Reply): string {
    match r
    case Status(text) => "+" + text + CRLF
    case Number(n) => Header(':', n)
    case Bulk(bytes) => Header('$', |bytes|) + bytes + CRLF
    case Nil => "$-1" + CRLF
    case Array(items) => Header('*', |items|) + EncodeAll(items)
  }

  function EncodeAll(items: seq<Reply>): string {
    if items == [] then [] else Encode(items[0]) + EncodeAll(items[1..])
  }

  /** What `do` writes for a command. */
  function Command(args: seq<string>): string { Header('*', |args|) + Bulks(args) }

  function Bulks(args: seq<string>): string {
    if args == [] then [] else Bulks(args[..|args| - 1]) + (Header('$', |args[|args| - 1]|) + args[|args| - 1] + CRLF)
  }

  /** A reply that fits the format: clean status lines, numbers and lengths within int64. */
  predicate Sendable(r: Reply) {
    match r
    case Status(text) => Clean(text)
    case Number(n) => -MAX_INT - 1 <= n <= MAX_INT
    case Bulk(bytes) => |bytes| <= MAX_INT
    case Nil => true
    case Array(items) => |items| <= MAX_INT && forall i :: 0 <= i < |items| ==> Sendable(items[i])
  }

  // ---- round trip ----------------------------------------------------------------------------

  /** The first step of every parse of a line of the wire form. */
  lemma Headed(line: string, tail: string)
    requires Clean(line) && line != []
    ensures Line(line + CRLF + tail) == Some(line + CRLF) && Trim(line + CRLF) == line
    ensures (line + CRLF + tail)[|line + CRLF|..] == tail
  {
    LineOf(line, tail);
    TrimOf(line);
  }

  lemma NumberLine(kind: char, n: int)
    requires kind != '\n' && kind != '\r'
    ensures Clean([kind] + Format(n)) && ([kind] + Format(n))[1..] == Format(n)
  {
    var s := [kind] + Format(n);
    forall i | 0 <= i < |s| ensures s[i] != '\n' && s[i] != '\r' {
      if i > 0 { assert s[i] == Format(n)[i - 1]; }
    }
  }

  /** What a line makes of the bytes after it: the empty line, an error reply and an unknown kind fail, so does a number
      that is none; a negative length is a nil, and a bulk that is not there completely fails. */
  lemma LineDecides(line: string, tail: string)
    requires Clean(line)
    ensures var r := Parse(line + CRLF + tail);
      && (line == [] || line[0] !in {'+', ':', '$', '*'} ==> r == Failed)
      && (line != [] && line[0] == '+' ==> r == Got(Status(line[1..]), tail))
      && (line != [] && line[0] in {':', '$', '*'} && Atoi(line[1..]) == None ==> r == Failed)
      && (line != [] && line[0] == ':' && Atoi(line[1..]).Some? ==> r == Got(Number(Atoi(line[1..]).value), tail))
      && (line != [] && line[0] in {'$', '*'} && Atoi(line[1..]).Some? && Atoi(line[1..]).value < 0 ==> r == Got(Nil, tail))
      && (line != [] && line[0] == '$' && Atoi(line[1..]).Some? && Atoi(line[1..]).value >= 0 ==>
            var n := Atoi(line[1..]).value; r == if |tail| < n + 2 then Failed else Got(Bulk(tail[..n]), tail[n + 2..]))
  {
    LineOf(line, tail);
    TrimOf(line);
    assert (line + CRLF + tail)[|line + CRLF|..] == tail;
    hide Line, Trim, Atoi;
  }

  lemma BulkRoundTrip(bytes: string, tail: string)
    requires |bytes| <= MAX_INT
    ensures Parse(Header('$', |bytes|) + bytes + CRLF + tail) == Got(Bulk(bytes), tail)
  {
    var line, after := ['$'] + Format(|bytes|), bytes + CRLF + tail;
    var s := Header('$', |bytes|) + bytes + CRLF + tail;
    assert s == line + CRLF + after;
    NumberLine('$', |bytes|);
    Headed(line, after);
    AtoiOfFormat(|bytes|);
    assert after[..|bytes|] == bytes && after[|bytes| + 2..] == tail;
  }

  lemma ArrayHeader(n: nat, after: string)
    requires n <= MAX_INT
    ensures Parse(Header('*', n) + after) == match ParseItems(after, n) { case Failed => Failed case Got(items, rest) => Got(Array(items), rest) }
  {
    var line := ['*'] + Format(n);
    assert Header('*', n) + after == line + CRLF + after;
    NumberLine('*', n);
    Headed(line, after);
    AtoiOfFormat(n);
  }

  /** Every sendable reply, followed by anything, is read back exactly, up to exactly its end. */
  lemma {:induction false} ReplyRoundTrip(r: Reply, tail: string)
    requires Sendable(r)
    ensures Parse(Encode(r) + tail) == Got(r, tail)
    decreases r, 0
  {
    match r
    case Status(text) =>
      assert Encode(r) + tail == ("+" + text) + CRLF + tail;
      assert Clean("+" + text) && ("+" + text)[1..] == text;
      Headed("+" + text, tail);
    case Number(n) =>
      assert Encode(r) + tail == ([':'] + Format(n)) + CRLF + tail;
      NumberLine(':', n);
      Headed([':'] + Format(n), tail);
      AtoiOfFormat(n);
    case Bulk(bytes) =>
      BulkRoundTrip(bytes, tail);
    case Nil =>
      assert Format(-1) == "-1" && ['$'] + Format(-1) == "$-1";
      NumberLine('$', -1);
      Headed("$-1", tail);
      AtoiOfFormat(-1);
    case Array(items) =>
      assert Encode(r) + tail == Header('*', |items|) + (EncodeAll(items) + tail);
      ArrayHeader(|items|, EncodeAll(items) + tail);
      ItemsRoundTrip(items, tail);
  }

  lemma {:induction false} ItemsRoundTrip(items: seq<Reply>, tail: string)
    requires forall i :: 0 <= i < |items| ==> Sendable(items[i])
    ensures ParseItems(EncodeAll(items) + tail, |items|) == Got(items, tail)
    decreases items, 1
  {
    hide Parse, Encode;
    if items == [] {
      assert EncodeAll(items) + tail == tail;
    } else {
      assert EncodeAll(items) + tail == Encode(items[0]) + (EncodeAll(items[1..]) + tail);
      ReplyRoundTrip(items[0], EncodeAll(items[1..]) + tail);
      ItemsRoundTrip(items[1..], tail);
      assert items == [items[0]] + items[1..];
    }
  }

  function AsBulks(args: seq<string>): seq<Reply> { seq(|args|, i requires 0 <= i < |args| => Bulk(args[i])) }

  lemma {:induction false} BulksAreItems(args: seq<string>)
    ensures Bulks(args) == EncodeAll(AsBulks(args))
  {
    if args != [] {
      var init, last := args[..|args| - 1], args[|args| - 1];
      BulksAreItems(init);
      assert AsBulks(args) == AsBulks(init) + [Bulk(last)];
      EncodeAppends(AsBulks(init), Bulk(last));
    }
  }

  lemma {:induction false} EncodeAppends(items: seq<Reply>, r: Reply)
    ensures EncodeAll(items + [r]) == EncodeAll(items) + Encode(r)
  {
    hide Encode;
    if items == [] {
      assert [r][1..] == [] && Encode(r) + [] == Encode(r) && [] + [r] == [r];
      assert EncodeAll([r]) == Encode(r);
    } else {
      assert (items + [r])[1..] == items[1..] + [r];
      EncodeAppends(items[1..], r);
      assert EncodeAll(items + [r]) == Encode(items[0]) + (EncodeAll(items[1..]) + Encode(r));
    }
  }

  /** What `do` writes, whatever bytes the arguments hold, is read back as the arguments, with nothing
      of what follows consumed. */
  lemma CommandRoundTrip(args: seq<string>, tail: string)
    requires |args| <= MAX_INT && forall i :: 0 <= i < |args| ==> |args[i]| <= MAX_INT
    ensures Parse(Command(args) + tail) == Got(Array(AsBulks(args)), tail)
  {
    BulksAreItems(args);
    assert Command(args) == Encode(Array(AsBulks(args)));
    ReplyRoundTrip(Array(AsBulks(args)), tail);
  }
}

/** The connection: a byte stream that arrives in pieces of any size. */
module RedisClient {
  import opened Wrappers
  import opened Resp

  datatype Result<+T> = Ok(value: T) | Err

  class Connection {
    /** The bytes not yet read, and how many of them each Read will deliver at most. */
    var stream: string
    var pieces: seq<nat>

    constructor (stream: string, pieces: seq<nat>)
      ensures this.stream == stream && this.pieces == pieces
    {
      this.stream, this.pieces := stream, pieces;
    }

    /** br.Read: at least one byte and at most `room`, or an error at the end of the stream. */
    method Read(room: nat) returns (got: Result<string>)
      requires room > 0
      modifies this
      ensures old(stream) == [] ==> got == Err && stream == []
      ensures old(stream) != [] ==> got.Ok? && 0 < |got.value| <= room && old(stream) == got.value + stream
    {
      if stream == [] { return Err; }
      var piece := if pieces == [] || pieces[0] == 0 then 1 else pieces[0];
      var n := if piece > room then room else piece;
      n := if n > |stream| then |stream| else n;
      pieces := if pieces == [] then [] else pieces[1..];
      got := Ok(stream[..n]);
      stream := stream[n..];
    }

    /** readFull: reads until the buffer is full, however the bytes arrive. */
    method ReadFull(buf: array<char>) returns (ok: bool)
      modifies this, buf
      ensures ok <==> |old(stream)| >= buf.Length
      ensures ok ==> buf[..] == old(stream)[..buf.Length] && stream == old(stream)[buf.Length..]
    {
      var got := 0;
      while got < buf.Length
        invariant 0 <= got <= buf.Length && got <= |old(stream)|
        invariant buf[..got] == old(stream)[..got] && stream == old(stream)[got..]
        decreases buf.Length - got
      {
        var r := Read(buf.Length - got);
        if r == Err { return false; }
        var bytes := r.value;
        forall i | 0 <= i < |bytes| { buf[got + i] := bytes[i]; }
        got := got + |bytes|;
        assert old(stream)[got..] == stream;
      }
      return true;
    }

    /** br.ReadString('\n'). */
    method ReadLine() returns (r: Option<string>)
      modifies this`stream
      ensures r == Line(old(stream))
      ensures r.Some? ==> |r.value| <= |old(stream)| && stream == old(stream)[|r.value|..]
    {
      var line: string := [];
      PrependNone(Line(stream));
      while stream != []
        invariant old(stream) == line + stream && Line(old(stream)) == Prepend(line, Line(stream))
        decreases |stream|
      {
        var c := stream[0];
        PrependNext(line, c, Line(stream[1..]));
        stream, line := stream[1..], line + [c];
        if c == '\n' { return Some(line); }
      }
      return None;
    }

    /** readReply, for every way the bytes can arrive in pieces. */
    method ReadReply() returns (r: Result<Reply>)
      modifies this
      ensures Parse(old(stream)) == Failed ==> r == Err
      ensures Parse(old(stream)).Got? ==> r == Ok(Parse(old(stream)).value) && stream == Parse(old(stream)).rest
      decreases |stream|, 0
    {
      LineIsPrefix(stream);
      var full := ReadLine();
      if full == None { return Err; }
      var line := Trim(full.value);
      if line == [] { return Err; }
      if line[0] == '+' { return Ok(Status(line[1..])); }
      if line[0] !in {':', '$', '*'} { return Err; }
      var n := Atoi(line[1..]);
      if n == None { return Err; }
      if line[0] == ':' { return Ok(Number(n.value)); }
      if n.value < 0 { return Ok(Nil); }
      if line[0] == '$' {
        ghost var rest := stream;
        var buf := new char[n.value + 2](_ => '\0');
        var ok := ReadFull(buf);
        if !ok { return Err; }
        assert buf[..n.value] == buf[..][..n.value] == rest[..n.value];
        return Ok(Bulk(buf[..n.value]));
      }
      var items := ReadItems(n.value);
      return if items == Err then Err else Ok(Array(items.value));
    }

    method ReadItems(n: nat) returns (r: Result<seq<Reply>>)
      modifies this
      ensures ParseItems(old(stream), n) == Failed ==> r == Err
      ensures ParseItems(old(stream), n).Got? ==> r == Ok(ParseItems(old(stream), n).value) && stream == ParseItems(old(stream), n).rest
      decreases |stream|, 1
    {
      var out: seq<Reply> := [];
      OntoNone(ParseItems(stream, n));
      for i := 0 to n
        invariant |stream| <= |old(stream)| && ParseItems(old(stream), n) == Onto(out, ParseItems(stream, n - i))
      {
        ghost var before := stream;
        var item := ReadReply();
        if item == Err { return Err; }
        OntoNext(out, item.value, ParseItems(stream, n - i - 1));
        out := out + [item.value];
      }
      assert out + [] == out;
      return Ok(out);
    }
  }

  function Prepend(line: string, o: Option<string>): Option<string> {
    match o case None => None case Some(l) => Some(line + l)
  }

  lemma PrependNone(o: Option<string>)
    ensures Prepend([], o) == o
  {
    if o.Some? { assert [] + o.value == o.value; }
  }

  lemma PrependNext(line: string, c: char, o: Option<string>)
    ensures Prepend(line, Prepend([c], o)) == Prepend(line + [c], o)
    ensures Prepend(line, Some([c])) == Some(line + [c])
  {
    if o.Some? { assert line + ([c] + o.value) == (line + [c]) + o.value; }
  }

  function Onto(out: seq<Reply>, p: Parsed<seq<Reply>>): Parsed<seq<Reply>> {
    match p case Failed => Failed case Got(items, rest) => Got(out + items, rest)
  }

  lemma OntoNone(p: Parsed<seq<Reply>>)
    ensures Onto([], p) == p
  {
    if p.Got? { assert [] + p.value == p.value; }
  }

  lemma OntoNext(out: seq<Reply>, r: Reply, p: Parsed<seq<Reply>>)
    ensures Onto(out, Onto([r], p)) == Onto(out + [r], p)
  {
    if p.Got? { assert out + ([r] + p.value) == (out + [r]) + p.value; }
  }

  /** The builder of `do`. */
  method Write(args: seq<string>) returns (b: string)
    ensures b == Command(args)
  {
    b := "*" + Format(|args|) + CRLF;
    for i := 0 to |args|
      invariant b == Header('*', |args|) + Bulks(args[..i])
    {
      assert args[..i + 1][..i] == args[..i];
      b := b + ("$" + Format(|args[i]|) + CRLF + args[i] + CRLF);
    }
    assert args[..|args|] == args;
  }
}
