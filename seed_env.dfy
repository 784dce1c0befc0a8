/** The environment loader of the seeding script (backend/seed.cjs): each
    of `.env` and `.env.local` is read line by line into the process
    environment without replacing a variable that already has a value, and
    the database address is the first of `MONGO_URI`, `MONGO_URL` and a
    local default that is set. A file is given as its text, or `None` when
    it does not exist. */
module SeedEnv {
  import opened Common

  // ---------------------------------------------------------------------
  // One line
  // ---------------------------------------------------------------------

  /** A `KEY=value` assignment read from a line. */
  datatype Entry = Entry(key: string, value: string)

  predicate IsQuote(c: char) { c == '"' || c == '\'' }

  /** `replace(/^["']|["']$/g, '')`: one quote at the start and one at the
      end are removed, each on its own; a lone quote is removed once. */
  function StripQuotes(v: string): string {
    var front := if v != [] && IsQuote(v[0]) then v[1..] else v;
    if front != [] && IsQuote(front[|front| - 1]) then front[..|front| - 1] else front
  }

  /** The body of the `forEach`: a line with an "=" that is not a comment
      gives the trimmed text before the first "=" as the key and the
      trimmed, unquoted rest (later "=" kept) as the value. */
  function ParseLine(line: string): Option<Entry> {
    var parts := Split(line, '=');
    if |parts| >= 2 && !StartsWith(Trim(line), "#") then
      Some(Entry(Trim(parts[0]), StripQuotes(Trim(Join(parts[1..], "=")))))
    else None
  }

  /** The position of the first `c` in `s`. */
  function FirstIndex(s: string, c: char): (i: nat)
    requires c in s
    ensures i < |s| && s[i] == c && c !in s[..i]
  {
    if s[0] == c then 0 else 1 + FirstIndex(s[1..], c)
  }

  /** The first piece is the text before the first separator, and the
      other pieces joined back give the text after it. */
  lemma {:induction false} SplitAtFirst(s: string, sep: char)
    requires sep in s
    ensures var i := FirstIndex(s, sep); var parts := Split(s, sep);
      |parts| >= 2 && parts[0] == s[..i] && Join(parts[1..], [sep]) == s[i + 1..]
  {
    var rest := Split(s[1..], sep);
    if s[0] == sep {
      JoinSplit(s[1..], sep);
      assert Split(s, sep)[1..] == rest;
    } else {
      SplitAtFirst(s[1..], sep);
      var i := FirstIndex(s, sep);
      var parts := Split(s, sep);
      assert parts[1..] == rest[1..];
      assert parts[0] == [s[0]] + s[1..][..i - 1];
      assert s[..i] == [s[0]] + s[1..][..i - 1];
      assert s[1..][i - 1 + 1..] == s[i + 1..];
    }
  }

  /** A line is used exactly when it holds an "=" and, trimmed, does not
      start with "#"; its key is the trimmed text before the first "=" and
      its value the trimmed, unquoted text after it. */
  lemma ParseLineSpec(line: string)
    ensures ParseLine(line).Some? <==> '=' in line && !StartsWith(Trim(line), "#")
    ensures ParseLine(line).Some? ==>
      var i := FirstIndex(line, '=');
      ParseLine(line).value == Entry(Trim(line[..i]), StripQuotes(Trim(line[i + 1..])))
  {
    SplitCount(line, '=');
    assert '=' in line <==> multiset(line)['='] > 0;
    if '=' in line {
      SplitAtFirst(line, '=');
    }
  }

  /** Quotes around a value go; a value neither starting nor ending with a
      quote is kept; a quote on one side only goes on that side. */
  lemma StripQuotesSpec(core: string, open: char, close: char)
    requires IsQuote(open) && IsQuote(close)
    ensures StripQuotes([open] + core + [close]) == core
    ensures core == [] || (!IsQuote(core[0]) && !IsQuote(core[|core| - 1])) ==>
      StripQuotes(core) == core && StripQuotes([open] + core) == core && StripQuotes(core + [close]) == core
  {
    assert ([open] + core + [close])[1..] == core + [close];
    assert (core + [close])[..|core|] == core;
    assert ([open] + core)[1..] == core;
  }

  // ---------------------------------------------------------------------
  // The environment
  // ---------------------------------------------------------------------

  /** `if (!process.env[key]) process.env[key] = value`: an unset or empty
      variable is written, any other is kept. */
  function Assigned(vars: map<string, string>, e: Entry): map<string, string> {
    if e.key !in vars || vars[e.key] == [] then vars[e.key := e.value] else vars
  }

  /** The environment after the lines, in order. */
  function LoadedLines(vars: map<string, string>, lines: seq<string>): map<string, string> {
    if lines == [] then vars
    else
      Applied(LoadedLines(vars, lines[..|lines| - 1]), lines[|lines| - 1])
  }

  /** One line applied: a used line is assigned, any other ignored. */
  function Applied(vars: map<string, string>, line: string): map<string, string> {
    var entry := ParseLine(line);
    if entry.Some? then Assigned(vars, entry.value) else vars
  }

  /** Whether the variable has a value JavaScript counts as true. */
  predicate IsSet(vars: map<string, string>, key: string) {
    key in vars && vars[key] != []
  }

  class ProcessEnv {
    var vars: map<string, string>

    constructor (initial: map<string, string>)
      ensures vars == initial
    {
      vars := initial;
    }

    /** `loadEnv`: a missing file changes nothing; otherwise every line is
        applied in order. */
    method LoadEnv(file: Option<string>)
      modifies this
      ensures vars == if file.None? then old(vars) else LoadedLines(old(vars), Split(file.value, '\n'))
    {
      if file.None? {
        return;
      }
      var lines := Split(file.value, '\n');
      var k := 0;
      while k < |lines|
        invariant 0 <= k <= |lines|
        invariant vars == LoadedLines(old(vars), lines[..k])
      {
        assert lines[..k + 1][..k] == lines[..k];
        assert LoadedLines(old(vars), lines[..k + 1]) == Applied(vars, lines[k]);
        var entry := ParseLine(lines[k]);
        if entry.Some? {
          var e := entry.value;
          if e.key !in vars || vars[e.key] == [] {
            vars := vars[e.key := e.value];
          }
        }
        k := k + 1;
      }
      assert lines[..|lines|] == lines;
    }
  }

  /** A variable that already has a value keeps it, whatever the lines
      say. */
  lemma {:induction false} LoadedKeeps(vars: map<string, string>, lines: seq<string>, key: string)
    requires IsSet(vars, key)
    ensures key in LoadedLines(vars, lines) && LoadedLines(vars, lines)[key] == vars[key]
  {
    if lines != [] {
      LoadedKeeps(vars, lines[..|lines| - 1], key);
    }
  }

  /** Whether the line is used and assigns `key`. */
  predicate Names(line: string, key: string) {
    ParseLine(line).Some? && ParseLine(line).value.key == key
  }

  /** One more line adds at most its own key. */
  lemma LoadedStep(vars: map<string, string>, lines: seq<string>, key: string)
    requires lines != []
    ensures key in LoadedLines(vars, lines) <==>
      key in LoadedLines(vars, lines[..|lines| - 1]) || Names(lines[|lines| - 1], key)
  {
  }

  /** Whether some line is used and assigns `key`. */
  predicate SomeLineNames(lines: seq<string>, key: string) {
    AnyOf(lines, (line: string) => Names(line, key))
  }

  predicate AnyOf<T>(s: seq<T>, p: T -> bool) {
    exists j :: 0 <= j < |s| && p(s[j])
  }

  /** Some element passes exactly when an earlier one or the last does. */
  lemma AnyOfStep<T>(s: seq<T>, p: T -> bool)
    requires s != []
    ensures AnyOf(s, p) <==> AnyOf(s[..|s| - 1], p) || p(s[|s| - 1])
  {
    var init := s[..|s| - 1];
    if AnyOf(init, p) {
      var j :| 0 <= j < |init| && p(init[j]);
      assert s[j] == init[j];
    }
    if AnyOf(s, p) {
      var j :| 0 <= j < |s| && p(s[j]);
      if j < |init| {
        assert init[j] == s[j];
      }
    }
  }

  /** The variables after loading are the ones before and the keys of the
      used lines, and no other. */
  lemma {:induction false} LoadedKeys(vars: map<string, string>, lines: seq<string>, key: string)
    ensures key in LoadedLines(vars, lines) <==> key in vars || SomeLineNames(lines, key)
  {
    if lines != [] {
      LoadedKeys(vars, lines[..|lines| - 1], key);
      LoadedStep(vars, lines, key);
      AnyOfStep(lines, (line: string) => Names(line, key));
    }
  }

  /** A used line for a variable that is unset when it is reached sets it
      to the line's value. */
  lemma LoadedLineSets(vars: map<string, string>, lines: seq<string>, line: string)
    requires ParseLine(line).Some? && !IsSet(LoadedLines(vars, lines), ParseLine(line).value.key)
    ensures var e := ParseLine(line).value;
      LoadedLines(vars, lines + [line])[e.key] == e.value
  {
    assert (lines + [line])[..|lines|] == lines;
  }

  /** `.env` is read before `.env.local`, so a variable `.env` sets to a
      value keeps that value. */
  lemma DotEnvWins(vars: map<string, string>, dotEnv: seq<string>, dotEnvLocal: seq<string>, key: string)
    requires IsSet(LoadedLines(vars, dotEnv), key)
    ensures key in LoadedLines(LoadedLines(vars, dotEnv), dotEnvLocal)
    ensures LoadedLines(LoadedLines(vars, dotEnv), dotEnvLocal)[key] == LoadedLines(vars, dotEnv)[key]
  {
    LoadedKeeps(LoadedLines(vars, dotEnv), dotEnvLocal, key);
  }

  // ---------------------------------------------------------------------
  // The database address
  // ---------------------------------------------------------------------

  const DefaultUri := "mongodb://localhost:27017/dine_ai"

  /** `MONGO_URI || MONGO_URL || default`. */
  function MongoUri(vars: map<string, string>): (r: string)
    ensures r != []
  {
    if IsSet(vars, "MONGO_URI") then vars["MONGO_URI"]
    else if IsSet(vars, "MONGO_URL") then vars["MONGO_URL"]
    else DefaultUri
  }

  /** The address is `MONGO_URI` when that is set; `MONGO_URL` only when
      `MONGO_URI` is not; the default only when neither is. */
  lemma MongoUriSpec(vars: map<string, string>)
    ensures IsSet(vars, "MONGO_URI") ==> MongoUri(vars) == vars["MONGO_URI"]
    ensures !IsSet(vars, "MONGO_URI") && IsSet(vars, "MONGO_URL") ==> MongoUri(vars) == vars["MONGO_URL"]
    ensures MongoUri(vars) == DefaultUri <== !IsSet(vars, "MONGO_URI") && !IsSet(vars, "MONGO_URL")
    ensures MongoUri(vars) in {DefaultUri} + (set k | k in vars && k in {"MONGO_URI", "MONGO_URL"} :: vars[k])
  {
  }
}
