/**
 * The settings file reader of lip6tui/config.py: a line-by-line reader for a
 * flat subset of TOML (section headers, and keys holding a quoted string, a
 * boolean or a decimal integer), and the `Config` object that overlays what
 * the file gives on its defaults.
 */
module Configuration {
  import opened Wrappers
  import opened Text
  import opened Seqs

  /** A value a key line can hold. */
  datatype Scalar = Str(s: string) | Bool(b: bool) | Int(i: nat)

  /** A top-level entry: a key given before any header, or a section table. */
  datatype Entry = Value(v: Scalar) | Table(t: map<string, Scalar>)

  /** The dictionary `_parse_toml_simple` returns. */
  type Document = map<string, Entry>

  /** What one line of the file does. */
  datatype LineKind = Skip | Header(name: string) | Assign(key: string, value: Scalar)

  /** The line `^\[(.+)]$` accepts, on a stripped line. */
  predicate IsHeaderLine(line: string) {
    |line| >= 3 && line[0] == '[' && line[|line| - 1] == ']'
  }

  /** A key and the text after `=` and the blanks following it. */
  datatype KeyMatch = KeyMatch(key: string, rest: string)

  /**
   * The common prefix `^(\w+)\s*=\s*` of the three key patterns. Neither a
   * blank nor `=` is a word character, so the match is the longest one.
   */
  function MatchKey(line: string): Option<KeyMatch> {
    var k := WordRun(line);
    if k == 0 then None
    else
      var j := SpaceEnd(line, k);
      if j < |line| && line[j] == '=' then Some(KeyMatch(line[..k], line[SpaceEnd(line, j + 1)..])) else None
  }

  /**
   * The value part, tried as the source does: `"(.*)"` (the line being
   * stripped, the greedy group runs to the final quote), then `true`/`false`
   * in any case, then `\d+`.
   */
  function ScalarOf(rest: string): Option<Scalar> {
    if |rest| >= 2 && rest[0] == '"' && rest[|rest| - 1] == '"' then Some(Str(rest[1..|rest| - 1]))
    else if Lower(rest) == "true" then Some(Bool(true))
    else if Lower(rest) == "false" then Some(Bool(false))
    else if IsDigits(rest) then Some(Int(DigitsValue(rest)))
    else None
  }

  /** The three key patterns on a stripped line. */
  function ReadKey(line: string): LineKind {
    match MatchKey(line)
    case None => Skip
    case Some(m) =>
      match ScalarOf(m.rest)
      case None => Skip
      case Some(v) => Assign(m.key, v)
  }

  /** How a stripped line is read. */
  function ClassifyStripped(line: string): LineKind {
    if line == [] || line[0] == '#' then Skip
    else if IsHeaderLine(line) then Header(Strip(line[1..|line| - 1]))
    else ReadKey(line)
  }

  /** How one raw line of the file is read. */
  function Classify(raw: string): LineKind {
    ClassifyStripped(Strip(raw))
  }

  /** The loop state: the dictionary so far and the section `current` points into. */
  datatype State = State(doc: Document, section: Option<string>)

  const Start := State(map[], None)

  /** The entries of section `n`, or none. */
  function TableOf(doc: Document, n: string): map<string, Scalar> {
    if n in doc && doc[n].Table? then doc[n].t else map[]
  }

  /** One turn of the loop. */
  function Step(st: State, kind: LineKind): State {
    match kind
    case Skip => st
    case Header(n) => State(st.doc[n := Table(map[])], Some(n))
    case Assign(k, v) =>
      match st.section
      case None => State(st.doc[k := Value(v)], None)
      case Some(n) => State(st.doc[n := Table(TableOf(st.doc, n)[k := v])], st.section)
  }

  /** The state after lines of the given kinds. */
  function Run(kinds: seq<LineKind>): State
    decreases |kinds|
  {
    if kinds == [] then Start
    else Step(Run(kinds[..|kinds| - 1]), kinds[|kinds| - 1])
  }

  /** How each line of a stretch is read. */
  function Kinds(lines: seq<string>): seq<LineKind> {
    Map(Classify, lines)
  }

  /** `_parse_toml_simple`. */
  function ParseToml(text: string): Document {
    Run(Kinds(SplitLines(text))).doc
  }

  /** The tests the loop body makes on one line, in the source's order. */
  method ReadLine(raw: string) returns (kind: LineKind)
    ensures kind == Classify(raw)
  {
    var line := Strip(raw);
    if line == [] || line[0] == '#' {
      return Skip;
    }
    if IsHeaderLine(line) {
      return Header(Strip(line[1..|line| - 1]));
    }
    var m := MatchKey(line);
    if m.None? {
      return Skip;
    }
    var v := ScalarOf(m.value.rest);
    if v.None? {
      return Skip;
    }
    return Assign(m.value.key, v.value);
  }

  /** The loop of `_parse_toml_simple`. */
  method ParseTomlSimple(text: string) returns (result: Document)
    ensures result == ParseToml(text)
  {
    var lines := SplitLines(text);
    result := map[];
    var current: Option<string> := None;
    for i := 0 to |lines|
      invariant State(result, current) == Run(Kinds(lines[..i]))
    {
      RunStep(lines, i);
      ghost var before := State(result, current);
      var kind := ReadLine(lines[i]);
      match kind {
        case Skip =>
        case Header(section) =>
          result := result[section := Table(map[])];
          current := Some(section);
        case Assign(key, v) =>
          if current.None? {
            result := result[key := Value(v)];
          } else {
            var n := current.value;
            result := result[n := Table(TableOf(result, n)[key := v])];
          }
      }
      assert State(result, current) == Step(before, kind);
    }
    assert lines[..|lines|] == lines;
  }

  /** One more line runs one more step. */
  lemma RunStep(lines: seq<string>, i: nat)
    requires i < |lines|
    ensures Run(Kinds(lines[..i + 1])) == Step(Run(Kinds(lines[..i])), Classify(lines[i]))
  {
    MapSnoc(Classify, lines, i);
    var ks := Kinds(lines[..i + 1]);
    assert ks[..i] == Kinds(lines[..i]);
  }

  // ---------------------------------------------------------------------------
  // Lines
  // ---------------------------------------------------------------------------

  /** A non-empty run of word characters: what `(\w+)` captures. */
  predicate IsKey(k: string) { |k| > 0 && forall i :: 0 <= i < |k| ==> IsWordChar(k[i]) }

  /** The way the file writes `key = value`. */
  function KeyLine(k: string, value: string): string { k + " = " + value }

  /** `MatchKey` on a line whose key ends at `k`, `=` sits at `j` and the value starts at `r`. */
  lemma MatchKeyAt(line: string, k: nat, j: nat, r: nat)
    requires 0 < k <= j < r <= |line| && line[j] == '='
    requires WordRun(line) == k
    requires SpaceEnd(line, k) == j
    requires SpaceEnd(line, j + 1) == r
    ensures MatchKey(line) == Some(KeyMatch(line[..k], line[r..]))
  {
  }

  lemma KeyLineMatch(k: string, value: string)
    requires IsKey(k) && value != [] && !IsSpace(value[0]) && !IsSpace(value[|value| - 1])
    ensures Strip(KeyLine(k, value)) == KeyLine(k, value)
    ensures MatchKey(KeyLine(k, value)) == Some(KeyMatch(k, value))
  {
    var line := KeyLine(k, value);
    assert line[0] == k[0] && line[|line| - 1] == value[|value| - 1];
    StripNoEdges(line);
    KeyLineRuns(k, value, line);
    MatchKeyAt(line, |k|, |k| + 1, |k| + 3);
  }

  /** Where the key, the blanks around `=` and the value sit in a `key = value` line. */
  lemma KeyLineRuns(k: string, value: string, line: string)
    requires IsKey(k) && value != [] && !IsSpace(value[0])
    requires line == KeyLine(k, value)
    ensures WordRun(line) == |k| && line[|k| + 1] == '='
    ensures SpaceEnd(line, |k|) == |k| + 1 && SpaceEnd(line, |k| + 2) == |k| + 3
    ensures line[..|k|] == k && line[|k| + 3..] == value
  {
    KeyLineParts(k, value, line);
    WordRunAt(line, |k|);
    SpaceEndAt(line, |k|, |k| + 1);
    SpaceEndAt(line, |k| + 2, |k| + 3);
  }

  lemma KeyLineParts(k: string, value: string, line: string)
    requires line == KeyLine(k, value)
    ensures line[..|k|] == k && line[|k| + 3..] == value
    ensures line[|k|] == ' ' && line[|k| + 1] == '=' && line[|k| + 2] == ' '
    ensures value != [] ==> line[|k| + 3] == value[0]
  {
  }

  /** A `key = value` line is read as the scalar its value part reads as. */
  lemma KeyLineRead(k: string, value: string, v: Scalar)
    requires IsKey(k) && value != [] && !IsSpace(value[0]) && !IsSpace(value[|value| - 1])
    requires ScalarOf(value) == Some(v)
    ensures Classify(KeyLine(k, value)) == Assign(k, v)
  {
    var line := KeyLine(k, value);
    KeyLineMatch(k, value);
    assert ReadKey(line) == Assign(k, v);
    assert line[0] == k[0];
    assert ClassifyStripped(line) == Assign(k, v);
  }

  /** A quoted value is read back whole, quotes inside it included. */
  lemma StringLine(k: string, s: string)
    requires IsKey(k)
    ensures Classify(KeyLine(k, "\"" + s + "\"")) == Assign(k, Str(s))
  {
    var q := "\"" + s + "\"";
    assert q[1..|q| - 1] == s;
    KeyLineRead(k, q, Str(s));
  }

  /** `true` and `false` are read in any case. */
  lemma BoolLine(k: string, word: string)
    requires IsKey(k) && (Lower(word) == "true" || Lower(word) == "false")
    ensures Classify(KeyLine(k, word)) == Assign(k, Bool(Lower(word) == "true"))
  {
    var l := Lower(word);
    assert l[0] == 't' || l[0] == 'f';
    assert word[0] != '"' && !IsSpace(word[0]);
    assert l[|l| - 1] == 'e';
    assert !IsSpace(word[|word| - 1]);
    KeyLineRead(k, word, Bool(l == "true"));
  }

  /** A run of digits is read as a number. */
  lemma IntLine(k: string, d: string)
    requires IsKey(k) && IsDigits(d)
    ensures Classify(KeyLine(k, d)) == Assign(k, Int(DigitsValue(d)))
  {
    assert d[0] != '"' && !IsSpace(d[0]) && !IsSpace(d[|d| - 1]);
    assert Lower(d) != "true" && Lower(d) != "false" by {
      assert Lower(d)[0] == d[0];
    }
    KeyLineRead(k, d, Int(DigitsValue(d)));
  }

  /** A header names the section between the brackets, blanks dropped. */
  lemma HeaderLine(n: string)
    requires n != []
    ensures Classify("[" + n + "]") == Header(Strip(n))
  {
    var line := "[" + n + "]";
    assert line[0] == '[' && line[|line| - 1] == ']';
    StripNoEdges(line);
    assert Strip(line) == line;
    assert line[1..|line| - 1] == n;
    assert IsHeaderLine(line);
  }

  /** A blank line or a comment. */
  predicate Ignorable(line: string) {
    var t := Strip(line);
    t == [] || t[0] == '#'
  }

  lemma IgnorableIsSkip(line: string)
    requires Ignorable(line)
    ensures Classify(line) == Skip
  {
  }

  /** A line that does nothing can be dropped. */
  lemma {:induction false} SkipChangesNothing(a: seq<LineKind>, b: seq<LineKind>)
    ensures Run(a + [Skip] + b) == Run(a + b)
    decreases |b|
  {
    if b == [] {
      assert a + [Skip] + b == a + [Skip];
      assert (a + [Skip])[..|a|] == a;
      assert a + b == a;
    } else {
      var b' := b[..|b| - 1];
      SkipChangesNothing(a, b');
      assert (a + [Skip] + b)[..|a + [Skip] + b| - 1] == a + [Skip] + b';
      assert (a + b)[..|a + b| - 1] == a + b';
    }
  }

  lemma KindsAppend(a: seq<string>, b: seq<string>)
    ensures Kinds(a + b) == Kinds(a) + Kinds(b)
  {
    MapAppend(Classify, a, b);
  }

  /** Blank lines and comments, wherever they are, change nothing. */
  lemma IgnorableLine(a: seq<string>, c: string, b: seq<string>)
    requires Ignorable(c)
    ensures Run(Kinds(a + [c] + b)) == Run(Kinds(a + b))
  {
    IgnorableIsSkip(c);
    KindsAppend(a, [c]);
    KindsAppend(a + [c], b);
    KindsAppend(a, b);
    assert Kinds([c]) == [Skip];
    SkipChangesNothing(Kinds(a), Kinds(b));
  }

  // ---------------------------------------------------------------------------
  // Sections
  // ---------------------------------------------------------------------------

  predicate NoHeader(kinds: seq<LineKind>) {
    forall i :: 0 <= i < |kinds| ==> !kinds[i].Header?
  }

  /** The entries the key lines of a stretch assign, the later ones winning. */
  function Entries(kinds: seq<LineKind>): map<string, Scalar>
    decreases |kinds|
  {
    if kinds == [] then map[]
    else
      var e := Entries(kinds[..|kinds| - 1]);
      match kinds[|kinds| - 1]
      case Assign(k, v) => e[k := v]
      case _ => e
  }

  /**
   * A section holds exactly what the key lines after its last header assign:
   * a header met again starts the section afresh.
   */
  lemma {:induction false} SectionContents(a: seq<LineKind>, n: string, b: seq<LineKind>)
    requires NoHeader(b)
    ensures Run(a + [Header(n)] + b).section == Some(n)
    ensures n in Run(a + [Header(n)] + b).doc
    ensures Run(a + [Header(n)] + b).doc[n] == Table(Entries(b))
    decreases |b|
  {
    if b == [] {
      assert a + [Header(n)] + b == a + [Header(n)];
      assert (a + [Header(n)])[..|a|] == a;
    } else {
      var b' := b[..|b| - 1];
      assert NoHeader(b');
      SectionContents(a, n, b');
      assert (a + [Header(n)] + b)[..|a + [Header(n)] + b| - 1] == a + [Header(n)] + b';
    }
  }

  /** The top-level entries: the keys assigned before any header. */
  function Lift(e: map<string, Scalar>): Document {
    map k | k in e :: Value(e[k])
  }

  lemma {:induction false} TopLevelContents(b: seq<LineKind>)
    requires NoHeader(b)
    ensures Run(b).section == None
    ensures Run(b).doc == Lift(Entries(b))
    decreases |b|
  {
    if b != [] {
      var b' := b[..|b| - 1];
      assert NoHeader(b');
      TopLevelContents(b');
      match b[|b| - 1]
      case Assign(k, v) =>
        assert Lift(Entries(b')[k := v]) == Lift(Entries(b'))[k := Value(v)];
      case Skip =>
    }
  }

  /** Two assignments to one key in one place: the later one is kept. */
  lemma LaterAssignWins(st: State, k: string, v1: Scalar, v2: Scalar)
    ensures Step(Step(st, Assign(k, v1)), Assign(k, v2)) == Step(st, Assign(k, v2))
  {
    match st.section
    case None =>
      assert st.doc[k := Value(v1)][k := Value(v2)] == st.doc[k := Value(v2)];
    case Some(n) =>
      var t := TableOf(st.doc, n);
      assert TableOf(st.doc[n := Table(t[k := v1])], n) == t[k := v1];
      assert t[k := v1][k := v2] == t[k := v2];
  }

  // ---------------------------------------------------------------------------
  // The settings object
  // ---------------------------------------------------------------------------

  /** The six settings, as the object holds them. */
  datatype Settings = Settings(
    username: Scalar, email: Scalar, gateway: Scalar,
    hpcEnabled: Scalar, convEnabled: Scalar, hpcStorage: Scalar)

  const Defaults := Settings(Str(""), Str(""), Str("ssh.lip6.fr"), Bool(true), Bool(true), Str(""))

  /** `data.get(n, {})` is a table: the entry is missing or is a section. */
  predicate Usable(doc: Document, n: string) { n !in doc || doc[n].Table? }

  /** `table.get(k, d)`. */
  function Get(t: map<string, Scalar>, k: string, d: Scalar): Scalar {
    if k in t then t[k] else d
  }

  /** `_load` reads through without raising. */
  predicate Loads(doc: Document) { Usable(doc, "user") && Usable(doc, "clusters") }

  /**
   * The settings after `_load`, as far as it gets: when a section name holds
   * a scalar, the `.get` on it raises and the later settings keep their value.
   */
  function Merge(s: Settings, doc: Document): Settings {
    if !Usable(doc, "user") then s
    else
      var u := TableOf(doc, "user");
      var s1 := s.(username := Get(u, "username", s.username), email := Get(u, "email", s.email));
      if !Usable(doc, "clusters") then s1
      else
        var c := TableOf(doc, "clusters");
        s1.(gateway := Get(c, "gateway", s1.gateway),
            hpcEnabled := Get(c, "hpc_enabled", s1.hpcEnabled),
            convEnabled := Get(c, "conv_enabled", s1.convEnabled),
            hpcStorage := Get(c, "hpc_storage", s1.hpcStorage))
  }

  /** The settings a fresh object ends with, given the file's text if it exists. */
  function Loaded(file: Option<string>): Settings {
    if file.None? then Defaults else Merge(Defaults, ParseToml(file.value))
  }

  /** A key that is absent leaves its setting as it was. */
  lemma AbsentKeyKept(s: Settings, doc: Document)
    ensures "username" !in TableOf(doc, "user") ==> Merge(s, doc).username == s.username
    ensures "email" !in TableOf(doc, "user") ==> Merge(s, doc).email == s.email
    ensures "gateway" !in TableOf(doc, "clusters") ==> Merge(s, doc).gateway == s.gateway
    ensures "hpc_enabled" !in TableOf(doc, "clusters") ==> Merge(s, doc).hpcEnabled == s.hpcEnabled
    ensures "conv_enabled" !in TableOf(doc, "clusters") ==> Merge(s, doc).convEnabled == s.convEnabled
    ensures "hpc_storage" !in TableOf(doc, "clusters") ==> Merge(s, doc).hpcStorage == s.hpcStorage
  {
  }

  /** A key that is present replaces its setting, whatever type its value has. */
  lemma PresentKeyTaken(s: Settings, doc: Document)
    requires Loads(doc)
    ensures var u := TableOf(doc, "user");
      ("username" in u ==> Merge(s, doc).username == u["username"])
      && ("email" in u ==> Merge(s, doc).email == u["email"])
    ensures var c := TableOf(doc, "clusters");
      ("gateway" in c ==> Merge(s, doc).gateway == c["gateway"])
      && ("hpc_enabled" in c ==> Merge(s, doc).hpcEnabled == c["hpc_enabled"])
      && ("conv_enabled" in c ==> Merge(s, doc).convEnabled == c["conv_enabled"])
      && ("hpc_storage" in c ==> Merge(s, doc).hpcStorage == c["hpc_storage"])
  {
  }

  /** Where `_load` raises, the settings it had not reached stay as they were. */
  lemma FailedLoadStops(s: Settings, doc: Document)
    ensures !Usable(doc, "user") ==> Merge(s, doc) == s
    ensures !Usable(doc, "clusters") ==>
      Merge(s, doc).(username := s.username, email := s.email) == s
  {
  }

  /** Only the two sections `_load` asks for matter. */
  lemma OtherSectionsIgnored(s: Settings, d1: Document, d2: Document)
    requires ("user" in d1 <==> "user" in d2) && ("user" in d1 ==> d1["user"] == d2["user"])
    requires ("clusters" in d1 <==> "clusters" in d2) && ("clusters" in d1 ==> d1["clusters"] == d2["clusters"])
    ensures Merge(s, d1) == Merge(s, d2)
    ensures Loads(d1) == Loads(d2)
  {
  }

  /** A key named like a section, written before any header, makes `_load` raise. */
  lemma TopLevelSectionNameRaises(b: seq<LineKind>)
    requires NoHeader(b) && ("user" in Entries(b) || "clusters" in Entries(b))
    ensures !Loads(Run(b).doc)
  {
    TopLevelContents(b);
  }

  /** An empty file leaves every default in place. */
  lemma EmptyFileKeepsDefaults()
    ensures ParseToml("") == map[]
    ensures Loaded(Some("")) == Defaults && Loads(ParseToml(""))
  {
  }

  /** The `Config` object. */
  class Config {
    var username: Scalar
    var email: Scalar
    var gateway: Scalar
    var hpcEnabled: Scalar
    var convEnabled: Scalar
    var hpcStorage: Scalar

    function Values(): Settings
      reads this
    {
      Settings(username, email, gateway, hpcEnabled, convEnabled, hpcStorage)
    }

    /** The defaults `__init__` assigns before it loads the file. */
    constructor ()
      ensures Values() == Defaults
    {
      username := Str("");
      email := Str("");
      gateway := Str("ssh.lip6.fr");
      hpcEnabled := Bool(true);
      convEnabled := Bool(true);
      hpcStorage := Str("");
    }

    /**
     * `_load`, given the file's text when it exists. `ok` is false where the
     * source raises; the fields assigned before that point keep their update.
     */
    method Load(file: Option<string>) returns (ok: bool)
      modifies this
      ensures ok == (file.None? || Loads(ParseToml(file.value)))
      ensures Values() == (if file.None? then old(Values()) else Merge(old(Values()), ParseToml(file.value)))
    {
      if file.None? {
        return true;
      }
      var data := ParseTomlSimple(file.value);
      if !Usable(data, "user") {
        return false;
      }
      var user := TableOf(data, "user");
      username := Get(user, "username", username);
      email := Get(user, "email", email);
      if !Usable(data, "clusters") {
        return false;
      }
      var clusters := TableOf(data, "clusters");
      gateway := Get(clusters, "gateway", gateway);
      hpcEnabled := Get(clusters, "hpc_enabled", hpcEnabled);
      convEnabled := Get(clusters, "conv_enabled", convEnabled);
      hpcStorage := Get(clusters, "hpc_storage", hpcStorage);
      return true;
    }
  }

  /** `load_config`: a new object, or failure where the source raises. */
  method LoadConfig(file: Option<string>) returns (c: Config, ok: bool)
    ensures fresh(c)
    ensures ok == (file.None? || Loads(ParseToml(file.value)))
    ensures ok ==> c.Values() == Loaded(file)
  {
    c := new Config();
    ok := c.Load(file);
  }
}
