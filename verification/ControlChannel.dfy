/** The control channel between host and guest: resize requests in, the exit status out. */
module ControlChannel {
  import opened Wrappers
  import opened Text

  // ---- the exit line, guest to host -----------------------------------------------

  /** What the guest writes on the control channel when its shell has exited. */
  function ExitLine(code: int): string {
    "exit " + DecInt(code)
  }

  function ParseExit(line: string): Option<int> {
    var parts := Words(AsciiSpace, line);
    if |parts| != 2 || parts[0] != "exit" then None else PyInt(parts[1])
  }

  predicate IsI32(n: int) {
    -0x8000_0000 <= n < 0x8000_0000
  }

  /** `exit_code`: the code of an exited shell, or 128 and the signal. */
  function ExitCode(code: Option<int>, signal: Option<int>): int {
    if code.Some? then code.value else 128 + (if signal.Some? then signal.value else 0)
  }

  const EXIT: string := "exit"
  lemma ExitWords(code: int)
    ensures Words(AsciiSpace, ExitLine(code)) == [EXIT, DecInt(code)]
  {
    DecIsSolid(AsciiSpace, code);
    assert ExitLine(code) == EXIT + SP + DecInt(code);
    NextWord(AsciiSpace, EXIT, DecInt(code));
    LastWord(AsciiSpace, DecInt(code));
  }

  lemma ExitLineReadsBack(code: int)
    requires IsI32(code)
    ensures ParseExit(ExitLine(code)) == Some(code)
  {
    ExitWords(code);
    assert Pow10(10) == 10000000000;
    DecLength(if code < 0 then -code else code, 10);
    PyIntReadsBack(code);
  }

  /** A line with another verb, or with anything behind the code, is no exit message: such lines are ignored. */
  lemma OthersAreIgnored(verb: string, code: string, more: string)
    requires verb != "" && Solid(AsciiSpace, verb) && code != "" && Solid(AsciiSpace, code)
    requires more != "" && Solid(AsciiSpace, more)
    ensures verb != "exit" ==> ParseExit(verb + SP + code).None?
    ensures ParseExit(verb + SP + (code + SP + more)).None? && ParseExit(verb).None?
  {
    NextWord(AsciiSpace, verb, code);
    LastWord(AsciiSpace, code);
    LastWord(AsciiSpace, verb);
    ThreeWords(AsciiSpace, verb, code, more);
  }

  /** The guest ignores a line with another verb, or with a size missing. */
  lemma OtherVerbsAreIgnored(verb: string, cols: string, rows: string)
    requires verb != "" && Solid(RustSpace, verb) && cols != "" && Solid(RustSpace, cols)
    requires rows != "" && Solid(RustSpace, rows)
    ensures verb != "resize" ==> ParseResize(verb + SP + (cols + SP + rows)).None?
    ensures ParseResize(verb + SP + cols).None? && ParseResize(verb).None?
  {
    ThreeWords(RustSpace, verb, cols, rows);
    NextWord(RustSpace, verb, cols);
    LastWord(RustSpace, cols);
    LastWord(RustSpace, verb);
  }

  /** What the system says of a child that ended: a 32-bit code, or one of at most 127 signals. */
  predicate IsWaitStatus(code: Option<int>, signal: Option<int>) {
    (code.Some? ==> IsI32(code.value)) && (signal.Some? ==> 0 <= signal.value < 128)
  }

  /** However the shell ended, the host reads back its code, or 128 and the signal that killed it. */
  lemma ShellStatusReadsBack(code: Option<int>, signal: Option<int>)
    requires IsWaitStatus(code, signal)
    ensures ParseExit(ExitLine(ExitCode(code, signal))) ==
      if code.Some? then code else if signal.Some? then Some(128 + signal.value) else Some(128)
  {
    ExitLineReadsBack(ExitCode(code, signal));
  }

  /** The status of the first complete line that is a valid exit message. */
  function FirstExit(stream: string): Option<int>
    decreases |stream|
  {
    var n := Find('\n', stream);
    if n == |stream| then None
    else
      var status := ParseExit(stream[..n]);
      if status.Some? then status else FirstExit(stream[n + 1..])
  }

  function Concat(chunks: seq<string>): string {
    if chunks == [] then "" else chunks[0] + Concat(chunks[1..])
  }

  lemma FirstLine(buffer: string, rest: string)
    requires '\n' in buffer
    ensures var n := Find('\n', buffer);
      && n < |buffer|
      && FirstExit(buffer + rest) ==
           (var status := ParseExit(buffer[..n]); if status.Some? then status else FirstExit(buffer[n + 1..] + rest))
  {
    var n := Find('\n', buffer);
    LineAndTail(buffer, n, rest);
    LineInFront(buffer[..n], buffer[n + 1..] + rest);
  }

  lemma LineAndTail(buffer: string, n: nat, rest: string)
    requires n < |buffer| && buffer[n] == '\n'
    ensures buffer + rest == buffer[..n] + ['\n'] + (buffer[n + 1..] + rest)
  {
    assert buffer == buffer[..n] + ['\n'] + buffer[n + 1..];
  }

  lemma LineInFront(line: string, rest: string)
    requires '\n' !in line
    ensures FirstExit(line + ['\n'] + rest) == if ParseExit(line).Some? then ParseExit(line) else FirstExit(rest)
  {
    var stream := line + ['\n'] + rest;
    FindAt('\n', line, rest);
    assert stream[..|line|] == line && stream[|line| + 1..] == rest;
  }

  lemma NextChunk(buffer: string, chunks: seq<string>, i: nat)
    requires i < |chunks|
    ensures buffer + Concat(chunks[i..]) == (buffer + chunks[i]) + Concat(chunks[i + 1..])
  {
    assert chunks[i..][1..] == chunks[i + 1..];
  }

  /**
   `_watch_exit`: the reader of the control channel, given what each recv returned until the
   end of the stream, an error or a cancellation.
   */
  method WatchExit(chunks: seq<string>) returns (status: Option<int>)
    ensures status == FirstExit(Concat(chunks))
  {
    var buffer := "";
    var i := 0;
    ghost var answer := FirstExit(Concat(chunks));
    assert buffer + Concat(chunks[0..]) == Concat(chunks) by {
      assert chunks[0..] == chunks;
    }
    while i < |chunks|
      invariant 0 <= i <= |chunks|
      invariant '\n' !in buffer
      invariant answer == FirstExit(buffer + Concat(chunks[i..]))
    {
      NextChunk(buffer, chunks, i);
      buffer := buffer + chunks[i];
      i := i + 1;
      ghost var rest := Concat(chunks[i..]);
      while '\n' in buffer
        invariant answer == FirstExit(buffer + rest)
        decreases |buffer|
      {
        FirstLine(buffer, rest);
        var n := Find('\n', buffer);
        status := ParseExit(buffer[..n]);
        buffer := buffer[n + 1..];
        if status.Some? {
          return;
        }
      }
    }
    assert buffer + Concat(chunks[i..]) == buffer;
    status := None;
  }

  /** Complete lines of which none is a valid exit message. */
  predicate IsNoise(s: string) {
    (s == "" || s[|s| - 1] == '\n') && FirstExit(s).None?
  }

  lemma NoiseGoesOn(noise: string)
    requires IsNoise(noise) && '\n' in noise
    ensures var n := Find('\n', noise); n < |noise| && ParseExit(noise[..n]).None? && IsNoise(noise[n + 1..])
  {
    var n := Find('\n', noise);
    FirstLine(noise, "");
    assert noise + "" == noise && noise[n + 1..] + "" == noise[n + 1..];
  }

  lemma {:induction false} SkipNoise(noise: string, rest: string)
    requires IsNoise(noise)
    ensures FirstExit(noise + rest) == FirstExit(rest)
    decreases |noise|
  {
    if noise == "" {
      assert noise + rest == rest;
    } else {
      assert noise[|noise| - 1] in noise;
      FirstLine(noise, rest);
      NoiseGoesOn(noise);
      SkipNoise(noise[Find('\n', noise) + 1..], rest);
    }
  }

  /** Any i32 the guest prints after any noise is read back unchanged, however the stream was cut into chunks. */
  lemma ExitCodeSurvivesChunking(noise: string, code: int, rest: string, chunks: seq<string>)
    requires IsNoise(noise) && IsI32(code) && Concat(chunks) == noise + (ExitLine(code) + "\n" + rest)
    ensures FirstExit(Concat(chunks)) == Some(code)
  {
    SkipNoise(noise, ExitLine(code) + "\n" + rest);
    NoNewline(code);
    FindAt('\n', ExitLine(code), rest);
    assert (ExitLine(code) + "\n" + rest)[..|ExitLine(code)|] == ExitLine(code);
    ExitLineReadsBack(code);
  }

  lemma NoNewline(code: int)
    ensures '\n' !in ExitLine(code)
  {
    DecIsSolid(AsciiSpace, code);
    assert !IsSpace(AsciiSpace, 'e') && IsSpace(AsciiSpace, '\n');
  }

  // ---- resize requests, host to guest --------------------------------------------------

  function ResizeLine(cols: int, rows: int): string {
    "resize " + DecInt(cols) + " " + DecInt(rows)
  }

  /** Rust's `str::parse::<u16>`. */
  function ParseU16(s: string): Option<nat> {
    var body := if s != "" && s[0] == '+' then s[1..] else s;
    if body == "" || !AllDigits(body) then None
    else if DigitsValue(body) < 0x1_0000 then Some(DigitsValue(body)) else None
  }

  /** The first two words after the verb; anything behind them is ignored. */
  function ParseResize(line: string): Option<(nat, nat)> {
    var parts := Words(RustSpace, line);
    if |parts| < 3 || parts[0] != "resize" then None
    else
      match (ParseU16(parts[1]), ParseU16(parts[2]))
      case (Some(cols), Some(rows)) => Some((cols, rows))
      case _ => None
  }

  predicate IsU16(n: int) {
    0 <= n < 0x1_0000
  }

  lemma ParseU16ReadsBack(n: int)
    ensures ParseU16(DecInt(n)) == if IsU16(n) then Some(n) else None
  {
    DecReadsBack(if n < 0 then -n else n);
    if n >= 0 {
      assert IsDigit(Dec(n)[0]);
    } else {
      assert !IsDigit(DecInt(n)[0]);
    }
  }

  const RESIZE: string := "resize"

  lemma ResizeWords(cols: int, rows: int)
    ensures Words(RustSpace, ResizeLine(cols, rows)) == [RESIZE, DecInt(cols), DecInt(rows)]
  {
    var c, r := DecInt(cols), DecInt(rows);
    DecIsSolid(RustSpace, cols);
    DecIsSolid(RustSpace, rows);
    assert ResizeLine(cols, rows) == RESIZE + SP + (c + SP + r);
    ThreeWords(RustSpace, RESIZE, c, r);
  }

  lemma ThreeWords(k: Space, a: string, b: string, c: string)
    requires a != "" && Solid(k, a) && b != "" && Solid(k, b) && c != "" && Solid(k, c)
    ensures Words(k, a + SP + (b + SP + c)) == [a, b, c]
  {
    NextWord(k, a, b + SP + c);
    NextWord(k, b, c);
    LastWord(k, c);
  }

  /** The guest applies exactly the sizes that fit a u16 pair, as the same columns and rows. */
  lemma ResizeReadsBack(cols: int, rows: int)
    ensures ParseResize(ResizeLine(cols, rows)) == if IsU16(cols) && IsU16(rows) then Some((cols, rows)) else None
  {
    ResizeWords(cols, rows);
    ParseU16ReadsBack(cols);
    ParseU16ReadsBack(rows);
  }

  /** `BufReader::lines`: complete lines without their line end; a trailing carriage return goes too. */
  function Chomp(line: string): string {
    if line != "" && line[|line| - 1] == '\r' then line[..|line| - 1] else line
  }

  /** The sizes the guest applies, reading the control stream line by line. */
  function Sizes(stream: string): seq<(nat, nat)>
    decreases |stream|
  {
    var n := Find('\n', stream);
    if n == |stream| then []
    else
      (match ParseResize(Chomp(stream[..n])) case Some(size) => [size] case None => []) + Sizes(stream[n + 1..])
  }

  /** What the host writes for a list of resizes. */
  function ResizeStream(sizes: seq<(nat, nat)>): string {
    if sizes == [] then "" else ResizeLine(sizes[0].0, sizes[0].1) + "\n" + ResizeStream(sizes[1..])
  }

  lemma ResizeLineIsPlain(cols: int, rows: int)
    ensures '\n' !in ResizeLine(cols, rows) && Chomp(ResizeLine(cols, rows)) == ResizeLine(cols, rows)
  {
    DecIsSolid(AsciiSpace, cols);
    DecIsSolid(AsciiSpace, rows);
    var line := ResizeLine(cols, rows);
    assert IsSpace(AsciiSpace, '\n') && IsSpace(AsciiSpace, '\r');
    assert line[|line| - 1] == DecInt(rows)[|DecInt(rows)| - 1];
  }

  lemma NextSize(line: string, rest: string, size: (nat, nat))
    requires '\n' !in line && ParseResize(Chomp(line)) == Some(size)
    ensures Sizes(line + "\n" + rest) == [size] + Sizes(rest)
  {
    var stream := line + "\n" + rest;
    FindAt('\n', line, rest);
    assert stream[..|line|] == line && stream[|line| + 1..] == rest;
  }

  lemma NextResize(size: (nat, nat), rest: string)
    requires IsU16(size.0) && IsU16(size.1)
    ensures Sizes(ResizeLine(size.0, size.1) + "\n" + rest) == [size] + Sizes(rest)
  {
    ResizeLineIsPlain(size.0, size.1);
    ResizeReadsBack(size.0, size.1);
    NextSize(ResizeLine(size.0, size.1), rest, size);
  }

  /** Every list of u16 sizes the host writes is applied by the guest in order. */
  lemma {:induction false} SizesReadBack(sizes: seq<(nat, nat)>)
    requires forall i :: 0 <= i < |sizes| ==> IsU16(sizes[i].0) && IsU16(sizes[i].1)
    ensures Sizes(ResizeStream(sizes)) == sizes
  {
    if sizes != [] {
      NextResize(sizes[0], ResizeStream(sizes[1..]));
      SizesReadBack(sizes[1..]);
      assert sizes == [sizes[0]] + sizes[1..];
    }
  }
}
