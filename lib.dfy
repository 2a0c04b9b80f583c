/** The entry point of the language crate (lang/src/lib.rs): `parse` runs the
    statement parser over a whole source and turns the error it stops with
    into an `Error` that can show where it happened. */
module Lib {
  import opened Base
  import opened Lex
  import opened Environment
  import opened Err
  import opened ParseFsm

  /** What `parse` reports when `root` over `s` ends with `o`: success, an
      error of the source itself with the span of the last token handed
      out, or an error of an included file. For the latter the source takes
      as "path" the text under the span of the last token handed out, which
      is the line end (or the end of input) after the `do_file` line. */
  function Report(s: Tokenized, o: ROut): (r: Result<(), Error>)
    ensures r.Ok? <==> o.res.Ok?
    ensures o.res.Fail? && o.res.error.Msg? ==>
              r == Fail(Error.Root(s.text, SpanAfter(s, o.pos).start, SpanAfter(s, o.pos).end, o.res.error.msg))
    ensures o.res.Fail? && o.res.error.SubFile? ==>
              && r.Fail? && r.error.Sub?
              && r.error.msg == o.res.error.msg && r.error.subText == o.res.error.subText
              && r.error.start == o.res.error.start && r.error.end == o.res.error.end
  {
    var sp := SpanAfter(s, o.pos);
    match o.res
    case Ok(_) => Ok(())
    case Fail(Msg(m)) => Fail(Error.Root(s.text, sp.start, sp.end, m))
    case Fail(SubFile(m, sub, a, b)) => Fail(Sub(Cut(s.text, sp.start, sp.end), sub, a, b, m))
  }

  /** `parse`: a fresh lexer over the source, `root` against the
      environment, and the outcome reported. `depth` bounds how deeply
      `do_file` may nest. */
  method Parse(s: Tokenized, env: Env, depth: nat) returns (r: Result<(), Error>)
    modifies env
    ensures var o := RootAt(depth, env.files, s, 0, old(env.stack));
            && r == Report(s, o) && env.stack == o.stack
            && env.calls == old(env.calls) + o.calls
  {
    var lx := new Lexer(s);
    var res := ParseFsm.Root(lx, env, depth);
    var (src, start, end) := lx.Done();
    match res {
      case Ok(_) =>
        r := Ok(());
      case Fail(Msg(m)) =>
        r := Fail(Error.Root(src, start, end, m));
      case Fail(SubFile(m, sub, a, b)) =>
        r := Fail(Sub(Cut(src, start, end), sub, a, b, m));
    }
  }

  /** `parse` succeeds exactly when `root` does, which is only by reaching
      the end of input. */
  lemma ParseSucceedsAtEnd(depth: nat, fs: map<string, Tokenized>, s: Tokenized, st: Stack)
    ensures var o := RootAt(depth, fs, s, 0, st);
            Report(s, o).Ok? ==> o.res.Ok? && TokAt(s, o.pos) == Eof
  {
    RootEnds(depth, fs, s, 0, st);
  }

  /** On well-formed input every error `parse` reports carries a span inside
      the text it refers to, so showing it never slices out of range. */
  lemma ErrorsLocated(depth: nat, fs: map<string, Tokenized>, s: Tokenized, st: Stack)
    requires WellFormed(s) && FilesWellFormed(fs)
    ensures var r := Report(s, RootAt(depth, fs, s, 0, st));
            r.Fail? ==> r.error.Located()
  {
    var o := RootAt(depth, fs, s, 0, st);
    SpanAfterIn(s, o.pos);
    SubErrorsLocated(depth, fs, s, 0, st);
  }

  /** The "path" of an included file's error is not the path `do_file` was
      given: it is the text of the line end (or of the end of input) that
      ended the `do_file` line. */
  lemma SubPathIsLineEnd(depth: nat, fs: map<string, Tokenized>, s: Tokenized, st: Stack)
    ensures var o := RootAt(depth, fs, s, 0, st);
            var r := Report(s, o);
            r.Fail? && r.error.Sub? ==>
              && o.pos > 0 && (TokAt(s, o.pos - 1) == Eol || TokAt(s, o.pos - 1) == Eof)
              && (WellFormed(s) ==> r.error.path == TextAt(s, o.pos - 1))
  {
    var o := RootAt(depth, fs, s, 0, st);
    RootEnds(depth, fs, s, 0, st);
    if WellFormed(s) {
      SpanAfterIn(s, o.pos);
    }
  }

  /** Every bar `parse` hands the runtime is a compiled one: its events lie
      before its length and every note lasts at least one step. This holds
      from a fresh environment, and since `parse` keeps the scopes well
      formed, for every later `parse` against the same environment. */
  lemma ParseAssignsCompiled(depth: nat, fs: map<string, Tokenized>, s: Tokenized, st: Stack)
    ensures var start := RootAt(depth, fs, s, 0, [map[]]);
            AssignsCompiled(start.calls)
    ensures ScopesOk(st) ==>
              var o := RootAt(depth, fs, s, 0, st);
              ScopesOk(o.stack) && AssignsCompiled(o.calls)
  {
    RootOk(depth, fs, s, 0, [map[]]);
    if ScopesOk(st) {
      RootOk(depth, fs, s, 0, st);
    }
  }
}
