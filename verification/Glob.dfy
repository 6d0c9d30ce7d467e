/** The task-name filter of a purge: a glob turned into a regular expression by editing text
    (django_celery_outbox/purge.py, `_glob_to_regex`). */
module Glob {

  // ---- The text the code produces -------------------------------------------------------------

  /** The characters `re.escape` puts a backslash before. */
  const SPECIAL: set<char> := {
    '(', ')', '[', ']', '{', '}', '?', '*', '+', '-', '|', '^', '$', '\\', '.', '&', '~', '#', ' ',
    '\t', '\n', '\r', '\U{0B}', '\U{0C}'}

  function Escape(p: string): string {
    if p == "" then "" else (if p[0] in SPECIAL then ['\\', p[0]] else [p[0]]) + Escape(p[1..])
  }

  /** `str.replace` of the two characters `a`, `b` */
  function Replace(s: string, a: char, b: char, text: string): string {
    if s == "" then ""
    else if |s| >= 2 && s[0] == a && s[1] == b then text + Replace(s[2..], a, b, text)
    else [s[0]] + Replace(s[1..], a, b, text)
  }

  function Edited(p: string): string {
    Replace(Replace(Escape(p), '\\', '*', ".*"), '\\', '?', ".")
  }

  function GlobToRegex(p: string): string {
    "^" + Edited(p) + "$"
  }

  // ---- What a regular expression of this kind means ---------------------------------------------

  /** An escaped or ordinary character, `.` and `.*`. */
  datatype Atom = Lit(c: char) | Any | AnyStar

  datatype Parsed = Atoms(atoms: seq<Atom>) | NotThisKind

  function Then(a: Atom, rest: Parsed): Parsed {
    if rest.Atoms? then Atoms([a] + rest.atoms) else NotThisKind
  }

  /** The characters that mean something by themselves in a regular expression. */
  predicate Meta(c: char) {
    c in {'.', '^', '$', '*', '+', '?', '(', ')', '[', ']', '{', '}', '|', '\\'}
  }

  /** A backslash before any of these does not make it an ordinary character. */
  predicate WordCharacter(c: char) {
    'a' <= c <= 'z' || 'A' <= c <= 'Z' || '0' <= c <= '9' || c == '_'
  }

  /** What follows the opening `^`, up to a `$` at the very end. A backslash takes the meaning
      from the character after it, unless that is a word character. */
  function ParseBody(s: string): Parsed {
    if s == "" then NotThisKind
    else if s == "$" then Atoms([])
    else if s[0] == '\\' then
      if |s| >= 2 && !WordCharacter(s[1]) then Then(Lit(s[1]), ParseBody(s[2..])) else NotThisKind
    else if s[0] == '.' then
      if |s| >= 2 && s[1] == '*' then Then(AnyStar, ParseBody(s[2..])) else Then(Any, ParseBody(s[1..]))
    else if Meta(s[0]) then NotThisKind
    else Then(Lit(s[0]), ParseBody(s[1..]))
  }

  function Parse(s: string): Parsed {
    if s == "" || s[0] != '^' then NotThisKind else ParseBody(s[1..])
  }

  predicate OneLine(s: string) { '\n' !in s }

  ghost predicate Accepts(atoms: seq<Atom>, s: string)
    decreases |atoms|
  {
    if atoms == [] then s == ""
    else match atoms[0]
         case Lit(c) => s != "" && s[0] == c && Accepts(atoms[1..], s[1..])
         case Any => s != "" && s[0] != '\n' && Accepts(atoms[1..], s[1..])
         case AnyStar => exists k :: 0 <= k <= |s| && OneLine(s[..k]) && Accepts(atoms[1..], s[k..])
  }

  // ---- What a glob means ---------------------------------------------------------------------------

  predicate Fits(c: char, piece: string) {
    if c == '*' then true else if c == '?' then |piece| == 1 else piece == [c]
  }

  function Joined(pieces: seq<string>): string {
    if pieces == [] then "" else pieces[0] + Joined(pieces[1..])
  }

  /** `name` can be cut into pieces, one for each character of `p`: any piece for `*`, one
      character for `?`, and the character itself for every other. */
  ghost predicate GlobMatches(p: string, name: string) {
    exists pieces: seq<string> :: IsCut(p, name, pieces)
  }

  ghost predicate IsCut(p: string, name: string, pieces: seq<string>) {
    |pieces| == |p| && Joined(pieces) == name && forall i :: 0 <= i < |p| ==> Fits(p[i], pieces[i])
  }

  // ---- The text edits do what they are meant to -----------------------------------------------------

  /** What each pattern character should become. */
  function Token(c: char): string {
    if c == '*' then ".*" else if c == '?' then "." else if c in SPECIAL then ['\\', c] else [c]
  }

  function Tokens(p: string): string {
    if p == "" then "" else Token(p[0]) + Tokens(p[1..])
  }

  /** Half way: the stars are done, the question marks are still escaped. */
  function HalfToken(c: char): string {
    if c == '*' then ".*" else if c in SPECIAL then ['\\', c] else [c]
  }

  function HalfTokens(p: string): string {
    if p == "" then "" else HalfToken(p[0]) + HalfTokens(p[1..])
  }

  /** A piece that is not the one looked for is passed over whole, even one that ends in a
      backslash, as long as what follows does not complete a match. */
  lemma ReplaceSkips(token: string, rest: string, b: char, text: string)
    requires (|token| == 1 && token[0] != '\\') || (|token| == 2 && token[0] == '\\' && token[1] != b)
             || (|token| == 2 && token[0] == '.' && token[1] == '*')
    requires rest == "" || rest[0] != b
    ensures Replace(token + rest, '\\', b, text) == token + Replace(rest, '\\', b, text)
  {
    var s := token + rest;
    assert s[1..] == token[1..] + rest;
    if |token| == 2 {
      assert s[1..][1..] == rest && s[1..][0] == token[1];
      assert Replace(s, '\\', b, text) == [s[0]] + Replace(s[1..], '\\', b, text);
      assert Replace(s[1..], '\\', b, text) == [token[1]] + Replace(rest, '\\', b, text);
    }
  }

  lemma ReplaceHits(rest: string, b: char, text: string)
    ensures Replace(['\\', b] + rest, '\\', b, text) == text + Replace(rest, '\\', b, text)
  {
    assert (['\\', b] + rest)[2..] == rest;
  }

  lemma {:induction false} StarsReplaced(p: string)
    ensures Replace(Escape(p), '\\', '*', ".*") == HalfTokens(p)
    ensures Escape(p) == "" || Escape(p)[0] != '*'
    decreases |p|
  {
    if p != "" {
      StarsReplaced(p[1..]);
      if p[0] == '*' {
        ReplaceHits(Escape(p[1..]), '*', ".*");
      } else {
        ReplaceSkips(if p[0] in SPECIAL then ['\\', p[0]] else [p[0]], Escape(p[1..]), '*', ".*");
      }
    }
  }

  lemma {:induction false} MarksReplaced(p: string)
    ensures Replace(HalfTokens(p), '\\', '?', ".") == Tokens(p)
    ensures HalfTokens(p) == "" || HalfTokens(p)[0] != '?'
    decreases |p|
  {
    if p != "" {
      MarksReplaced(p[1..]);
      if p[0] == '?' {
        ReplaceHits(HalfTokens(p[1..]), '?', ".");
      } else {
        ReplaceSkips(HalfToken(p[0]), HalfTokens(p[1..]), '?', ".");
      }
    }
  }

  /** The two replacements never split another character's escape, not even after literal
      backslashes: every character of the pattern becomes exactly its own token. */
  lemma EditsAreCharacterwise(p: string)
    ensures Edited(p) == Tokens(p)
  {
    StarsReplaced(p);
    MarksReplaced(p);
  }

  // ---- The meaning ----------------------------------------------------------------------------------

  function AtomOf(c: char): Atom {
    if c == '*' then AnyStar else if c == '?' then Any else Lit(c)
  }

  function AtomsOf(p: string): seq<Atom> {
    if p == "" then [] else [AtomOf(p[0])] + AtomsOf(p[1..])
  }

  lemma {:induction false} TokensParse(p: string)
    ensures ParseBody(Tokens(p) + "$") == Atoms(AtomsOf(p))
    ensures (Tokens(p) + "$")[0] != '*'
    decreases |p|
  {
    if p != "" {
      TokensParse(p[1..]);
      var s, rest := Tokens(p) + "$", Tokens(p[1..]) + "$";
      assert s == Token(p[0]) + rest;
      assert s != "$";
      if |Token(p[0])| == 2 {
        assert s[2..] == rest;
      } else {
        assert s[1..] == rest;
      }
    }
  }

  /** Cutting off the first piece. */
  lemma CutFirst(p: string, name: string)
    requires p != ""
    ensures GlobMatches(p, name) <==>
              exists k :: 0 <= k <= |name| && Fits(p[0], name[..k]) && GlobMatches(p[1..], name[k..])
  {
    if GlobMatches(p, name) {
      var pieces :| IsCut(p, name, pieces);
      var k := |pieces[0]|;
      assert name[..k] == pieces[0] && name[k..] == Joined(pieces[1..]);
      assert IsCut(p[1..], name[k..], pieces[1..]);
    }
    if k :| 0 <= k <= |name| && Fits(p[0], name[..k]) && GlobMatches(p[1..], name[k..]) {
      var pieces :| IsCut(p[1..], name[k..], pieces);
      var all := [name[..k]] + pieces;
      assert all[1..] == pieces && name == name[..k] + name[k..];
      assert IsCut(p, name, all);
    }
  }

  lemma {:induction false} AtomsMeanTheGlob(p: string, name: string)
    requires OneLine(name)
    ensures Accepts(AtomsOf(p), name) <==> GlobMatches(p, name)
    decreases |p|
  {
    if p == "" {
      if name == "" { assert IsCut(p, name, []); }
      assert GlobMatches(p, name) ==> name == "";
    } else {
      CutFirst(p, name);
      assert AtomsOf(p)[1..] == AtomsOf(p[1..]);
      forall k | 0 <= k <= |name|
        ensures OneLine(name[..k])
        ensures Accepts(AtomsOf(p[1..]), name[k..]) <==> GlobMatches(p[1..], name[k..])
      {
        AtomsMeanTheGlob(p[1..], name[k..]);
      }
      if name != "" { assert name[..1] == [name[0]]; }
    }
  }

  /** For every pattern the compiled text is a regular expression, and it accepts a (one-line)
      task name exactly when the glob matches it. */
  lemma RegexMeansTheGlob(p: string, name: string)
    requires OneLine(name)
    ensures var r := Parse(GlobToRegex(p));
            r.Atoms? && (Accepts(r.atoms, name) <==> GlobMatches(p, name))
  {
    EditsAreCharacterwise(p);
    TokensParse(p);
    AtomsMeanTheGlob(p, name);
    assert GlobToRegex(p)[1..] == Tokens(p) + "$";
  }
}
