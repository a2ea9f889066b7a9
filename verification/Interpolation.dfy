/**
 Placeholder substitution: `interpolate` of src/prompts/prompt-builder.ts and
 `interpolateTemplate` of src/campaigns/campaign-runner.ts. Both replace every
 match of two opening braces, a run of word characters and two closing braces.
 */
module Interpolation {
  import opened Wrappers

  /** What a template consists of: single characters, and placeholders by name. */
  datatype Piece = Lit(c: char) | Hole(name: string)

  datatype Contact = Contact(name: string, displayName: Option<string>, phone: Option<string>, email: Option<string>)

  /**
   Where values come from. `Variables` is a JavaScript object: its own
   properties, and those it inherits from `Object.prototype`, as strings.
   */
  datatype Source =
    | Variables(own: map<string, string>, inherited: map<string, string>)
    | ContactFields(contact: Contact)

  /** The regular expression's `\w`. */
  predicate IsWordChar(c: char) {
    'a' <= c <= 'z' || 'A' <= c <= 'Z' || '0' <= c <= '9' || c == '_'
  }

  const LOWER := {
    'a', 'b', 'c', 'd', 'e', 'f', 'g', 'h', 'i', 'j', 'k', 'l', 'm', 'n', 'o', 'p', 'q', 'r', 's', 't',
    'u', 'v', 'w', 'x', 'y', 'z'}

  const UPPER := {
    'A', 'B', 'C', 'D', 'E', 'F', 'G', 'H', 'I', 'J', 'K', 'L', 'M', 'N', 'O', 'P', 'Q', 'R', 'S', 'T',
    'U', 'V', 'W', 'X', 'Y', 'Z'}

  const DIGITS := {'0', '1', '2', '3', '4', '5', '6', '7', '8', '9'}

  /** A name is made of letters, digits and underscores. */
  lemma WordCharsAreThese(c: char)
    ensures IsWordChar(c) <==> c in LOWER || c in UPPER || c in DIGITS || c == '_'
  {
  }

  predicate IsWord(s: string) {
    s != [] && forall c | c in s :: IsWordChar(c)
  }

  function Placeholder(name: string): string {
    "{{" + name + "}}"
  }

  // ------------------------------------------------------------- the scanner

  function WordRun(s: string): (n: nat)
    ensures n <= |s|
    ensures forall i | 0 <= i < n :: IsWordChar(s[i])
    ensures n < |s| ==> !IsWordChar(s[n])
  {
    if s == [] || !IsWordChar(s[0]) then 0 else 1 + WordRun(s[1..])
  }

  /** The length of the name when a placeholder starts here; 0 when none does. */
  function MatchAt(s: string): (n: nat)
    ensures n > 0 ==> n + 4 <= |s|
  {
    if |s| < 2 || s[0] != '{' || s[1] != '{' then 0
    else
      var n := WordRun(s[2..]);
      if n + 4 <= |s| && s[n + 2] == '}' && s[n + 3] == '}' then n else 0
  }

  /** The piece the scanner cuts off the front, and what it leaves. */
  function Head(t: string): Piece
    requires t != []
  {
    if MatchAt(t) > 0 then Hole(t[2..MatchAt(t) + 2]) else Lit(t[0])
  }

  function Rest(t: string): (rest: string)
    requires t != []
    ensures |rest| < |t|
  {
    t[if MatchAt(t) > 0 then MatchAt(t) + 4 else 1..]
  }

  function Scan(t: string): seq<Piece> {
    if t == [] then [] else [Head(t)] + Scan(Rest(t))
  }

  // ---------------------------------------------------------- the replacement

  function Value(src: Source, name: string): Option<string> {
    match src
    case Variables(own, inherited) =>
      if name in own then Some(own[name]) else if name in inherited then Some(inherited[name]) else None
    case ContactFields(c) =>
      if name == "name" then Some(c.name)
      else if name == "displayName" then Some(if c.displayName.Some? then c.displayName.value else c.name)
      else if name == "phone" then Some(if c.phone.Some? then c.phone.value else "")
      else if name == "email" then Some(if c.email.Some? then c.email.value else "")
      else None
  }

  /** What one placeholder becomes: its value, or itself when it is unknown. */
  function Filled(src: Source, name: string): string {
    var v := Value(src, name);
    if v.Some? then v.value else Placeholder(name)
  }

  function Fill(src: Source): string -> string {
    (name: string) => Filled(src, name)
  }

  function Render(pieces: seq<Piece>, fill: string -> string): string
    decreases |pieces|
  {
    if pieces == [] then ""
    else PieceText(pieces[0], fill) + Render(pieces[1..], fill)
  }

  function PieceText(p: Piece, fill: string -> string): string {
    match p
    case Lit(c) => [c]
    case Hole(name) => fill(name)
  }

  function Interpolate(template: string, src: Source): string {
    Render(Scan(template), Fill(src))
  }

  // ----------------------------------------------- the leftmost segmentation

  /** The text the pieces were cut from. */
  function Raw(pieces: seq<Piece>): string {
    Render(pieces, Placeholder)
  }

  ghost predicate StartsWithPlaceholder(s: string) {
    exists name :: IsWord(name) && Placeholder(name) <= s
  }

  /** Placeholders have word names, and no placeholder starts at a character kept as a literal. */
  ghost predicate Leftmost(pieces: seq<Piece>)
    decreases |pieces|
  {
    pieces != [] ==>
      && (pieces[0].Hole? ==> IsWord(pieces[0].name))
      && (pieces[0].Lit? ==> !StartsWithPlaceholder(Raw(pieces)))
      && Leftmost(pieces[1..])
  }

  lemma {:induction false} WordRunOf(name: string, c: char, rest: string)
    requires (forall x | x in name :: IsWordChar(x)) && !IsWordChar(c)
    ensures WordRun(name + [c] + rest) == |name|
  {
    if name != [] {
      assert (name + [c] + rest)[1..] == name[1..] + [c] + rest;
      WordRunOf(name[1..], c, rest);
    }
  }

  lemma PlaceholderSlices(name: string, rest: string)
    ensures var s := Placeholder(name) + rest;
            && s[2..|name| + 2] == name && s[|name| + 4..] == rest
            && s[2..] == name + ['}'] + (['}'] + rest) && s[0] == s[1] == '{'
            && s[|name| + 2] == s[|name| + 3] == '}'
  {
  }

  /** The match is the name of the placeholder that starts here, whatever follows it. */
  lemma MatchOfPlaceholder(name: string, rest: string)
    requires IsWord(name)
    ensures MatchAt(Placeholder(name) + rest) == |name|
  {
    PlaceholderSlices(name, rest);
    WordRunOf(name, '}', ['}'] + rest);
  }

  lemma MatchIsPlaceholder(s: string) returns (name: string, rest: string)
    requires MatchAt(s) > 0
    ensures name == s[2..MatchAt(s) + 2] && rest == s[MatchAt(s) + 4..]
    ensures IsWord(name) && s == Placeholder(name) + rest
  {
    var n := MatchAt(s);
    name, rest := s[2..n + 2], s[n + 4..];
    assert name == s[2..][..n];
  }

  /** Matching is deciding whether a placeholder starts here. */
  lemma MatchMeansPlaceholder(s: string)
    ensures MatchAt(s) > 0 <==> StartsWithPlaceholder(s)
  {
    if MatchAt(s) > 0 {
      var name, rest := MatchIsPlaceholder(s);
      assert IsWord(name) && Placeholder(name) <= s;
    }
    if name :| IsWord(name) && Placeholder(name) <= s {
      MatchOfPlaceholder(name, s[|Placeholder(name)|..]);
      assert s == Placeholder(name) + s[|Placeholder(name)|..];
    }
  }

  lemma ScanOfPlaceholder(name: string, b: string)
    requires IsWord(name)
    ensures Scan(Placeholder(name) + b) == [Hole(name)] + Scan(b)
  {
    MatchOfPlaceholder(name, b);
    PlaceholderSlices(name, b);
  }

  lemma RenderFirst(p: Piece, q: seq<Piece>, fill: string -> string)
    ensures Render([p] + q, fill) == PieceText(p, fill) + Render(q, fill)
  {
    assert ([p] + q)[1..] == q;
  }

  /** Scanning loses nothing, and splits off placeholders leftmost first. */
  lemma {:induction false} ScanSegments(t: string)
    ensures Raw(Scan(t)) == t
    ensures Leftmost(Scan(t))
    decreases |t|
  {
    if t != [] {
      MatchMeansPlaceholder(t);
      if MatchAt(t) > 0 {
        var name, rest := MatchIsPlaceholder(t);
        ScanSegments(rest);
        RenderFirst(Hole(name), Scan(rest), Placeholder);
        assert ([Hole(name)] + Scan(rest))[1..] == Scan(rest);
      } else {
        ScanSegments(t[1..]);
        RenderFirst(Lit(t[0]), Scan(t[1..]), Placeholder);
        assert ([Lit(t[0])] + Scan(t[1..]))[1..] == Scan(t[1..]);
      }
    }
  }

  lemma ScanOfLiteral(c: char, rest: string)
    requires !StartsWithPlaceholder([c] + rest)
    ensures Scan([c] + rest) == [Lit(c)] + Scan(rest)
  {
    MatchMeansPlaceholder([c] + rest);
    assert ([c] + rest)[1..] == rest;
  }

  /** There is only one leftmost segmentation, so scanning finds it. */
  lemma {:induction false} SegmentationIsUnique(p: seq<Piece>)
    requires Leftmost(p)
    ensures p == Scan(Raw(p))
    decreases |p|
  {
    if p != [] {
      assert p == [p[0]] + p[1..];
      SegmentationIsUnique(p[1..]);
      match p[0] {
        case Lit(c) => ScanOfLiteral(c, Raw(p[1..]));
        case Hole(name) => ScanOfPlaceholder(name, Raw(p[1..]));
      }
    }
  }

  // ------------------------------------------------------------ composition

  lemma {:induction false} WordRunStops(x: string, y: string)
    requires x <= y && |x| < |y| && !IsWordChar(y[|x|])
    ensures WordRun(x) == WordRun(y)
  {
    if x != [] {
      WordRunStops(x[1..], y[1..]);
    }
  }

  predicate StartsWithBraces(s: string) {
    |s| >= 2 && s[0] == '{' && s[1] == '{'
  }

  /** A placeholder cannot straddle the start of another one. */
  lemma MatchIgnoresBraces(a: string, rest: string)
    requires a != [] && StartsWithBraces(rest)
    ensures MatchAt(a + rest) == MatchAt(a)
  {
    var s := a + rest;
    assert s[|a|] == '{' && s[|a| + 1] == '{';
    if |a| >= 2 {
      assert s[2..][|a| - 2] == '{' && a[2..] <= s[2..];
      WordRunStops(a[2..], s[2..]);
    }
  }

  lemma StepIgnoresBraces(a: string, rest: string)
    requires a != [] && StartsWithBraces(rest)
    ensures Head(a + rest) == Head(a) && Rest(a + rest) == Rest(a) + rest
  {
    MatchIgnoresBraces(a, rest);
    var n := MatchAt(a);
    assert (a + rest)[0] == a[0];
    if n > 0 {
      assert (a + rest)[2..n + 2] == a[2..n + 2];
    }
  }

  lemma {:induction false} ScanBeforeBraces(a: string, rest: string)
    requires StartsWithBraces(rest)
    ensures Scan(a + rest) == Scan(a) + Scan(rest)
    decreases |a|
  {
    if a == [] {
      assert a + rest == rest;
    } else {
      StepIgnoresBraces(a, rest);
      ScanBeforeBraces(Rest(a), rest);
    }
  }

  lemma {:induction false} RenderAppend(p: seq<Piece>, q: seq<Piece>, fill: string -> string)
    ensures Render(p + q, fill) == Render(p, fill) + Render(q, fill)
    decreases |p|
  {
    if p == [] {
      assert p + q == q;
    } else {
      assert (p + q)[1..] == p[1..] + q && (p + q)[0] == p[0];
      RenderAppend(p[1..], q, fill);
    }
  }

  /**
   Every occurrence of a placeholder, anywhere in a template, is replaced by its
   value, or stays when it is unknown. The value is taken over as it is: braces
   inside it never start or complete a placeholder.
   */
  lemma EachPlaceholderIsReplacedOnce(a: string, name: string, b: string, src: Source)
    requires IsWord(name)
    ensures Interpolate(a + (Placeholder(name) + b), src)
         == Interpolate(a, src) + (Filled(src, name) + Interpolate(b, src))
  {
    ScanOfPlaceholder(name, b);
    ScanBeforeBraces(a, Placeholder(name) + b);
    RenderAppend(Scan(a), [Hole(name)] + Scan(b), Fill(src));
    RenderFirst(Hole(name), Scan(b), Fill(src));
  }

  lemma {:induction false} RenderAgrees(pieces: seq<Piece>, f: string -> string, g: string -> string)
    requires forall p | p in pieces && p.Hole? :: f(p.name) == g(p.name)
    ensures Render(pieces, f) == Render(pieces, g)
    decreases |pieces|
  {
    if pieces != [] {
      assert pieces[0] in pieces && forall p | p in pieces[1..] :: p in pieces;
      RenderAgrees(pieces[1..], f, g);
    }
  }

  /** A template whose placeholders are all unknown is returned unchanged. */
  lemma UnknownPlaceholdersStay(t: string, src: Source)
    requires forall p | p in Scan(t) && p.Hole? :: Filled(src, p.name) == Placeholder(p.name)
    ensures Interpolate(t, src) == t
  {
    ScanSegments(t);
    RenderAgrees(Scan(t), Fill(src), Placeholder);
  }

  lemma {:induction false} HolesAreWords(pieces: seq<Piece>)
    requires Leftmost(pieces)
    ensures forall p | p in pieces && p.Hole? :: IsWord(p.name)
    decreases |pieces|
  {
    if pieces != [] {
      HolesAreWords(pieces[1..]);
      assert pieces == [pieces[0]] + pieces[1..];
    }
  }

  lemma OnePlaceholder(name: string, src: Source)
    requires IsWord(name)
    ensures Interpolate(Placeholder(name), src) == Filled(src, name)
  {
    EachPlaceholderIsReplacedOnce("", name, "", src);
    assert "" + (Placeholder(name) + "") == Placeholder(name);
  }

  ghost predicate IdentityOnEveryTemplate(src: Source) {
    forall t :: Interpolate(t, src) == t
  }

  /**
   With no variables at all, interpolation is the identity on every template
   exactly when the object inherits nothing under a word name (other than a name
   whose value spells the placeholder itself).
   */
  lemma EmptyVariablesAreIdentity(inherited: map<string, string>)
    ensures IdentityOnEveryTemplate(Variables(map[], inherited))
       <==> forall k | k in inherited && IsWord(k) :: inherited[k] == Placeholder(k)
  {
    var src := Variables(map[], inherited);
    if forall k | k in inherited && IsWord(k) :: inherited[k] == Placeholder(k) {
      forall t
        ensures Interpolate(t, src) == t
      {
        ScanSegments(t);
        HolesAreWords(Scan(t));
        UnknownPlaceholdersStay(t, src);
      }
    } else {
      var k :| k in inherited && IsWord(k) && inherited[k] != Placeholder(k);
      OnePlaceholder(k, src);
      assert Interpolate(Placeholder(k), src) != Placeholder(k);
    }
  }

  /** Every object inherits `constructor`, so a template can pick up text nobody supplied. */
  lemma InheritedNameIsReplaced(inherited: map<string, string>)
    requires "constructor" in inherited
    ensures Interpolate(Placeholder("constructor"), Variables(map[], inherited)) == inherited["constructor"]
  {
    OnePlaceholder("constructor", Variables(map[], inherited));
  }

  // ------------------------------------------------- the two implementations

  function AsVariables(c: Contact): map<string, string> {
    map["name" := c.name,
        "displayName" := if c.displayName.Some? then c.displayName.value else c.name,
        "phone" := if c.phone.Some? then c.phone.value else "",
        "email" := if c.email.Some? then c.email.value else ""]
  }

  lemma SameValue(c: Contact, inherited: map<string, string>, name: string)
    requires name in AsVariables(c) || name !in inherited
    ensures Value(ContactFields(c), name) == Value(Variables(AsVariables(c), inherited), name)
  {
  }

  /**
   The campaign's switch over contact fields is the prompt's substitution with
   the four fields as variables, on every template that names nothing inherited.
   */
  lemma ContactSwitchIsSubstitution(t: string, c: Contact, inherited: map<string, string>)
    requires forall p | p in Scan(t) && p.Hole? :: p.name in AsVariables(c) || p.name !in inherited
    ensures Interpolate(t, ContactFields(c)) == Interpolate(t, Variables(AsVariables(c), inherited))
  {
    forall p | p in Scan(t) && p.Hole?
      ensures Fill(ContactFields(c))(p.name) == Fill(Variables(AsVariables(c), inherited))(p.name)
    {
      SameValue(c, inherited, p.name);
    }
    RenderAgrees(Scan(t), Fill(ContactFields(c)), Fill(Variables(AsVariables(c), inherited)));
  }
}
