/** The fixed-arity keyword commands (lang/src/keywords.rs): each consumes
    its keyword and its numeric arguments, then makes one runtime call.
    `do_file` reaches back into the statement parser and lives in `ParseFsm`.

    Every command is a method over the lexer and the environment, proved
    equal to `Command`, a specification function of the keyword, the token
    stream and the keyword's index. */
module Keywords {
  import opened Base
  import opened Text
  import opened Lex
  import opened Environment
  import opened Err

  /** The outcome of a command: the runtime call it makes, or the error it
      stops with, and the index of the lookahead afterwards. */
  datatype KwOut = KwOut(res: Result<RtCmd, Message>, pos: nat)

  /** Why a numeric argument was refused: it is not a `Digits` token, or
      its text does not parse. */
  datatype NumErr = Missing | Unparsable

  /** `expect(Token::Digits)` then `slice().parse()` at index `q`, into an
      unsigned type whose values are below `limit`. */
  function NumAt(s: Source, q: nat, limit: nat): Result<nat, NumErr>
  {
    if TokAt(s, q) != Digits then Fail(Missing)
    else match ParseUnsigned(TextAt(s, q), limit)
      case None => Fail(Unparsable)
      case Some(n) => Ok(n)
  }

  /** The keywords handled here, by their number of arguments. */
  predicate NoArg(k: Token)
  {
    k == Token.ListOuts || k == FindLps
  }

  predicate OneArg(k: Token)
  {
    k == Bpm || k == Play || k == Stop || k == Token.OpenLp
  }

  predicate TwoArgs(k: Token)
  {
    k == Div || k == Sync || k == SetOut || k == Token.OpenOut
  }

  predicate IsCommand(k: Token)
  {
    NoArg(k) || OneArg(k) || TwoArgs(k)
  }

  /** The message for a refused first argument of the keyword `k`. */
  function FirstError(k: Token, e: NumErr): Message
  {
    if e == Missing then
      if k == Bpm then NeedBpm
      else if k == Token.OpenOut then NeedOutput
      else if k == Token.OpenLp then NeedLaunchpad
      else NeedSlot
    else
      if k == Bpm then BadBpm
      else if k == Token.OpenOut then BadOutput
      else if k == Token.OpenLp then BadLaunchpad
      else BadSlot
  }

  /** The message for a refused second argument of the keyword `k`. */
  function SecondError(k: Token, e: NumErr): Message
  {
    if e == Missing then
      if k == Div then NeedDivision
      else if k == Sync then NeedSyncDivision
      else if k == Token.OpenOut then NeedChannel
      else NeedOutNumber
    else
      if k == Div then BadDivision
      else if k == Sync then BadSyncDivision
      else if k == Token.OpenOut then BadChannel
      else BadOutNumber
  }

  /** The second argument of `open_output` is a u8, every other one a
      usize. */
  function SecondLimit(k: Token): nat
  {
    if k == Token.OpenOut then 256 else USIZE_LIMIT
  }

  /** The runtime call of a keyword without arguments. */
  function NullaryCall(k: Token): RtCmd
    requires NoArg(k)
  {
    if k == Token.ListOuts then RtCmd.ListOuts else ListLps
  }

  /** The runtime call of a one-argument keyword with its argument. */
  function UnaryCall(k: Token, a: nat): RtCmd
    requires OneArg(k)
  {
    if k == Bpm then SetBpm(a)
    else if k == Play then PlaySlot(a)
    else if k == Stop then StopSlot(a)
    else RtCmd.OpenLp(a)
  }

  /** The runtime call of a two-argument keyword with its arguments. */
  function BinaryCall(k: Token, a: nat, b: nat): RtCmd
    requires TwoArgs(k)
    requires k == Token.OpenOut ==> b < 256
  {
    if k == Div then SetDiv(a, b)
    else if k == Sync then SetSync(a, b)
    else if k == SetOut then SetOutput(a, b)
    else RtCmd.OpenOut(a, b)
  }

  /** A one-argument command whose keyword is at index `p`: the argument is
      at `p + 1`. */
  function Unary(k: Token, s: Source, p: nat): KwOut
    requires OneArg(k)
  {
    var a := NumAt(s, p + 1, USIZE_LIMIT);
    if a.Fail? then KwOut(Fail(FirstError(k, a.error)), p + 2)
    else KwOut(Ok(UnaryCall(k, a.value)), p + 2)
  }

  /** A two-argument command whose keyword is at index `p`: the arguments
      are at `p + 1` and `p + 2`. */
  function Binary(k: Token, s: Source, p: nat): KwOut
    requires TwoArgs(k)
  {
    var a := NumAt(s, p + 1, USIZE_LIMIT);
    if a.Fail? then KwOut(Fail(FirstError(k, a.error)), p + 2)
    else SecondArg(k, s, p + 2, a.value)
  }

  /** The rest of a two-argument command once its first argument `a` is
      read: the second argument is at index `q`. */
  function SecondArg(k: Token, s: Source, q: nat, a: nat): KwOut
    requires TwoArgs(k)
  {
    var b := NumAt(s, q, SecondLimit(k));
    if b.Fail? then KwOut(Fail(SecondError(k, b.error)), q + 1)
    else if k == Token.OpenOut && b.value > 15 then KwOut(Fail(ChannelOutOfRange), q + 1)
    else KwOut(Ok(BinaryCall(k, a, b.value)), q + 1)
  }

  /** The command `k` run from index `p`, the index of its keyword (which
      the source skips without looking at). */
  function Command(k: Token, s: Source, p: nat): (o: KwOut)
    requires IsCommand(k)
    ensures o.pos > p
  {
    if NoArg(k) then KwOut(Ok(NullaryCall(k)), p + 1)
    else if OneArg(k) then Unary(k, s, p)
    else Binary(k, s, p)
  }

  /** What a command returns to the statement parser. */
  function Outcome(res: Result<RtCmd, Message>): Result<(), Message>
  {
    match res
    case Ok(_) => Ok(())
    case Fail(m) => Fail(m)
  }

  /** The runtime calls a command makes: one on success, none on failure. */
  function Issued(res: Result<RtCmd, Message>): seq<RtCmd>
  {
    match res
    case Ok(c) => [c]
    case Fail(_) => []
  }

  /* ------------------------------------------------------------------ */
  /* Properties of the commands. */

  /** A one-argument command consumes its keyword and its argument, and
      succeeds exactly when the argument is a `Digits` token whose text
      parses as a usize; it then makes the keyword's call with that
      number. */
  lemma UnarySucceeds(k: Token, s: Source, p: nat)
    requires OneArg(k)
    ensures var o := Unary(k, s, p);
            var a := ParseUnsigned(TextAt(s, p + 1), USIZE_LIMIT);
            && o.pos == p + 2
            && (o.res.Ok? <==> TokAt(s, p + 1) == Digits && a.Some?)
            && (o.res.Ok? ==> o.res.value == UnaryCall(k, a.value))
  {
  }

  /** A two-argument command stops right after the argument that fails,
      and succeeds exactly when both arguments are `Digits` tokens whose
      texts parse into their types and, for `open_output`, the channel is
      at most 15; it then makes the keyword's call with those numbers. */
  lemma BinarySucceeds(k: Token, s: Source, p: nat)
    requires TwoArgs(k)
    ensures var o := Binary(k, s, p);
            var a := ParseUnsigned(TextAt(s, p + 1), USIZE_LIMIT);
            var b := ParseUnsigned(TextAt(s, p + 2), SecondLimit(k));
            && (o.pos == p + 3 || (o.pos == p + 2 && o.res.Fail?))
            && (o.res.Ok? <==> TokAt(s, p + 1) == Digits && a.Some? && TokAt(s, p + 2) == Digits && b.Some?
                               && (k == Token.OpenOut ==> b.value <= 15))
            && (o.res.Ok? ==> o.res.value == BinaryCall(k, a.value, b.value))
  {
  }

  /** The first argument's errors, shared by every command with arguments:
      a missing argument is reported before anything else is looked at. */
  lemma FirstArgumentErrors(k: Token, s: Source, p: nat)
    requires OneArg(k) || TwoArgs(k)
    ensures TokAt(s, p + 1) != Digits ==> Command(k, s, p) == KwOut(Fail(FirstError(k, Missing)), p + 2)
    ensures TokAt(s, p + 1) == Digits && ParseUnsigned(TextAt(s, p + 1), USIZE_LIMIT).None? ==>
              Command(k, s, p) == KwOut(Fail(FirstError(k, Unparsable)), p + 2)
  {
  }

  /** The second argument's errors, once the first has been read. */
  lemma SecondArgumentErrors(k: Token, s: Source, p: nat)
    requires TwoArgs(k) && NumAt(s, p + 1, USIZE_LIMIT).Ok?
    ensures TokAt(s, p + 2) != Digits ==> Binary(k, s, p) == KwOut(Fail(SecondError(k, Missing)), p + 3)
    ensures TokAt(s, p + 2) == Digits && ParseUnsigned(TextAt(s, p + 2), SecondLimit(k)).None? ==>
              Binary(k, s, p) == KwOut(Fail(SecondError(k, Unparsable)), p + 3)
  {
  }

  /** `open_output` never opens a channel above 15: a channel that parses
      as a u8 but exceeds 15 is refused with its own message. */
  lemma OpenOutputChannel(s: Source, q: nat, a: nat)
    ensures var o := SecondArg(Token.OpenOut, s, q, a);
            && (o.res.Ok? ==> o.res.value == RtCmd.OpenOut(a, o.res.value.channel) && o.res.value.channel <= 15)
            && (NumAt(s, q, 256).Ok? && NumAt(s, q, 256).value > 15 ==> o.res == Fail(ChannelOutOfRange))
  {
  }

  /** On a well-formed stream a `Digits` token is a non-empty digit run, so
      its number fails to parse exactly when it does not fit the type. */
  lemma BadNumberIsOverflow(s: Source, q: nat, limit: nat)
    requires WellFormed(s) && TokAt(s, q) == Digits
    ensures var w := TextAt(s, q);
            && |w| > 0 && AllDigits(w)
            && (NumAt(s, q, limit) == Fail(Unparsable) <==> DigitsValue(w) >= limit)
  {
    assert LexemeOk(s, q);
    var w := TextAt(s, q);
    assert |w| > 0 && AllDigits(w);
    assert w[0] != '+';
    ParseUnsignedAccepts(w, limit);
  }

  /* ------------------------------------------------------------------ */
  /* The commands as the source has them. */

  /** `expect(Token::Digits)` and the parse of the slice that follows each
      of them in the commands. */
  method ReadNum(lx: Lexer, limit: nat) returns (r: Result<nat, NumErr>)
    modifies lx
    ensures lx.Pos() == old(lx.Pos()) + 1
    ensures r == NumAt(lx.src, old(lx.Pos()), limit)
  {
    var e := lx.Expect(Digits);
    if e.Fail? {
      return Fail(Missing);
    }
    var n := ParseUnsigned(lx.Slice(), limit);
    if n.None? {
      return Fail(Unparsable);
    }
    return Ok(n.value);
  }

  /** A command taking one number, with the keyword `k`. */
  method OneNumber(lx: Lexer, env: Env, k: Token) returns (r: Result<(), Message>)
    requires OneArg(k)
    modifies lx, env
    ensures lx.Pos() == Unary(k, lx.src, old(lx.Pos())).pos
    ensures r == Outcome(Unary(k, lx.src, old(lx.Pos())).res)
    ensures env.calls == old(env.calls) + Issued(Unary(k, lx.src, old(lx.Pos())).res)
    ensures env.stack == old(env.stack)
  {
    lx.Advance();
    var a := ReadNum(lx, USIZE_LIMIT);
    if a.Fail? {
      return Fail(FirstError(k, a.error));
    }
    env.Forward(UnaryCall(k, a.value));
    r := Ok(());
  }

  /** A command taking two numbers, with the keyword `k`. */
  method TwoNumbers(lx: Lexer, env: Env, k: Token) returns (r: Result<(), Message>)
    requires TwoArgs(k)
    modifies lx, env
    ensures lx.Pos() == Binary(k, lx.src, old(lx.Pos())).pos
    ensures r == Outcome(Binary(k, lx.src, old(lx.Pos())).res)
    ensures env.calls == old(env.calls) + Issued(Binary(k, lx.src, old(lx.Pos())).res)
    ensures env.stack == old(env.stack)
  {
    lx.Advance();
    var a := ReadNum(lx, USIZE_LIMIT);
    if a.Fail? {
      return Fail(FirstError(k, a.error));
    }
    r := SecondNumber(lx, env, k, a.value);
  }

  /** The second number of a two-number command, and the call it makes. */
  method SecondNumber(lx: Lexer, env: Env, k: Token, a: nat) returns (r: Result<(), Message>)
    requires TwoArgs(k)
    modifies lx, env
    ensures lx.Pos() == SecondArg(k, lx.src, old(lx.Pos()), a).pos
    ensures r == Outcome(SecondArg(k, lx.src, old(lx.Pos()), a).res)
    ensures env.calls == old(env.calls) + Issued(SecondArg(k, lx.src, old(lx.Pos()), a).res)
    ensures env.stack == old(env.stack)
  {
    var b := ReadNum(lx, SecondLimit(k));
    if b.Fail? {
      return Fail(SecondError(k, b.error));
    }
    if k == Token.OpenOut && b.value > 15 {
      return Fail(ChannelOutOfRange);
    }
    env.Forward(BinaryCall(k, a, b.value));
    r := Ok(());
  }

  /** `list_outs` and `list_lps`: the keyword alone. */
  method NoArgument(lx: Lexer, env: Env, k: Token) returns (r: Result<(), Message>)
    requires NoArg(k)
    modifies lx, env
    ensures lx.Pos() == old(lx.Pos()) + 1
    ensures r == Ok(())
    ensures env.calls == old(env.calls) + [NullaryCall(k)]
    ensures env.stack == old(env.stack)
  {
    lx.Advance();
    env.Forward(NullaryCall(k));
    r := Ok(());
  }

  /** The ten commands `bpm` to `open_lp`, the keyword `k` telling which. */
  method RunCommand(lx: Lexer, env: Env, k: Token) returns (r: Result<(), Message>)
    requires IsCommand(k)
    modifies lx, env
    ensures lx.Pos() == Command(k, lx.src, old(lx.Pos())).pos
    ensures r == Outcome(Command(k, lx.src, old(lx.Pos())).res)
    ensures env.calls == old(env.calls) + Issued(Command(k, lx.src, old(lx.Pos())).res)
    ensures env.stack == old(env.stack)
  {
    if NoArg(k) {
      r := NoArgument(lx, env, k);
    } else if OneArg(k) {
      r := OneNumber(lx, env, k);
    } else {
      r := TwoNumbers(lx, env, k);
    }
  }
}
