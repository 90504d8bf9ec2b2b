/** The comma-separated namespace list of the configuration (src/agent/schemas/config.py). */
module Namespaces {
  import opened Wrappers

  /** The characters `str.strip` removes. */
  predicate IsSpace(c: char) {
    || '\t' <= c <= '\r'
    || '\U{1c}' <= c <= ' '
    || c == '\U{85}' || c == '\U{a0}' || c == '\U{1680}'
    || '\U{2000}' <= c <= '\U{200a}'
    || c == '\U{2028}' || c == '\U{2029}' || c == '\U{202f}' || c == '\U{205f}' || c == '\U{3000}'
  }

  function StripLeft(s: string): string {
    if s != [] && IsSpace(s[0]) then StripLeft(s[1..]) else s
  }

  function StripRight(s: string): string {
    if s != [] && IsSpace(s[|s| - 1]) then StripRight(s[..|s| - 1]) else s
  }

  function Strip(s: string): string {
    StripRight(StripLeft(s))
  }

  /** Cut at every comma; there is always one piece more than there are commas. */
  function Split(s: string): (pieces: seq<string>)
    ensures pieces != []
  {
    if s == [] then [[]]
    else if s[0] == ',' then [[]] + Split(s[1..])
    else
      var rest := Split(s[1..]);
      [[s[0]] + rest[0]] + rest[1..]
  }

  function Join(pieces: seq<string>): string {
    if pieces == [] then []
    else if |pieces| == 1 then pieces[0]
    else pieces[0] + "," + Join(pieces[1..])
  }

  /** The stripped pieces that are not empty. */
  function Names(pieces: seq<string>): seq<string> {
    if pieces == [] then []
    else (if Strip(pieces[0]) != [] then [Strip(pieces[0])] else []) + Names(pieces[1..])
  }

  /** A value from the environment is a string, a default may be something else. */
  datatype Setting = Text(text: string) | NotText

  datatype ConfigError = NotAString | NoNamespace

  function ParseTargetNamespaces(value: Setting): Result<seq<string>, ConfigError> {
    match value
    case NotText => Failure(NotAString)
    case Text(text) => if Names(Split(text)) == [] then Failure(NoNamespace) else Success(Names(Split(text)))
  }

  /** A name that survives parsing unchanged. */
  predicate IsName(s: string) {
    && s != [] && ',' !in s
    && !IsSpace(s[0]) && !IsSpace(s[|s| - 1])
  }

  lemma StripKeepsName(s: string)
    requires IsName(s)
    ensures Strip(s) == s
  {
  }

  lemma {:induction false} StripLeftEdge(s: string)
    ensures StripLeft(s) != [] ==> !IsSpace(StripLeft(s)[0])
    ensures forall c :: c in StripLeft(s) ==> c in s
  {
    if s != [] && IsSpace(s[0]) {
      StripLeftEdge(s[1..]);
    }
  }

  lemma {:induction false} StripRightEdge(s: string)
    ensures StripRight(s) <= s
    ensures StripRight(s) != [] ==> !IsSpace(StripRight(s)[|StripRight(s)| - 1])
    decreases |s|
  {
    if s != [] && IsSpace(s[|s| - 1]) {
      StripRightEdge(s[..|s| - 1]);
    }
  }

  /** Stripping a comma-free piece leaves nothing or a name. */
  lemma StripGivesName(s: string)
    requires ',' !in s
    ensures Strip(s) == [] || IsName(Strip(s))
  {
    StripLeftEdge(s);
    StripRightEdge(StripLeft(s));
    assert forall c :: c in Strip(s) ==> c in StripLeft(s);
  }

  lemma {:induction false} SplitIsCommaFree(s: string)
    ensures forall piece :: piece in Split(s) ==> ',' !in piece
    decreases s
  {
    if s != [] {
      SplitIsCommaFree(s[1..]);
      assert forall piece :: piece in Split(s)[1..] ==> piece in Split(s[1..]) || s[0] == ',';
    }
  }

  /** Cutting undoes joining for comma-free pieces. */
  lemma {:induction false} SplitJoin(pieces: seq<string>)
    requires pieces != [] && forall piece :: piece in pieces ==> ',' !in piece
    ensures Split(Join(pieces)) == pieces
    decreases pieces
  {
    if |pieces| == 1 {
      SplitPiece(pieces[0], []);
      assert pieces[0] + [] == pieces[0];
    } else {
      SplitJoin(pieces[1..]);
      var rest := "," + Join(pieces[1..]);
      assert rest[1..] == Join(pieces[1..]);
      assert Split(rest) == [[]] + pieces[1..];
      SplitPiece(pieces[0], rest);
      assert pieces[0] + [] == pieces[0] && ([[]] + pieces[1..])[1..] == pieces[1..];
      assert Join(pieces) == pieces[0] + rest;
    }
  }

  /** A comma-free piece in front goes into the first piece. */
  lemma {:induction false} SplitPiece(piece: string, rest: string)
    requires ',' !in piece
    ensures Split(piece + rest) == [piece + Split(rest)[0]] + Split(rest)[1..]
    decreases piece
  {
    if piece == [] {
      assert piece + rest == rest;
      assert piece + Split(rest)[0] == Split(rest)[0];
      assert Split(rest) == [Split(rest)[0]] + Split(rest)[1..];
    } else {
      SplitPiece(piece[1..], rest);
      assert (piece + rest)[1..] == piece[1..] + rest;
      assert [piece[0]] + (piece[1..] + Split(rest)[0]) == piece + Split(rest)[0];
    }
  }

  lemma {:induction false} NamesKeepNames(pieces: seq<string>)
    requires forall piece :: piece in pieces ==> IsName(piece)
    ensures Names(pieces) == pieces
    decreases pieces
  {
    if pieces != [] {
      StripKeepsName(pieces[0]);
      NamesKeepNames(pieces[1..]);
    }
  }

  lemma {:induction false} NamesAreNames(pieces: seq<string>)
    requires forall piece :: piece in pieces ==> ',' !in piece
    ensures forall name :: name in Names(pieces) ==> IsName(name)
    decreases pieces
  {
    if pieces != [] {
      StripGivesName(pieces[0]);
      NamesAreNames(pieces[1..]);
    }
  }

  /** A joined list of names is parsed back exactly when it has a name in it. */
  lemma ParseUndoesJoin(names: seq<string>)
    requires forall name :: name in names ==> IsName(name)
    ensures ParseTargetNamespaces(Text(Join(names))) == if names == [] then Failure(NoNamespace) else Success(names)
  {
    if names == [] {
      var blank: seq<string> := [""];
      assert Split(Join(names)) == blank && blank[1..] == [];
      assert Strip("") == "";
    } else {
      SplitJoin(names);
      NamesKeepNames(names);
    }
  }

  /** Whatever is parsed is a list of names, and joining and parsing it again changes nothing. */
  lemma ParseIsStable(text: string)
    requires ParseTargetNamespaces(Text(text)).Success?
    ensures var names := ParseTargetNamespaces(Text(text)).value;
            && names != []
            && (forall name :: name in names ==> IsName(name))
            && ParseTargetNamespaces(Text(Join(names))) == Success(names)
  {
    SplitIsCommaFree(text);
    NamesAreNames(Split(text));
    ParseUndoesJoin(Names(Split(text)));
  }

  /** Parsing fails exactly when every character is a comma or white space. */
  lemma {:induction false} ParseFailsOnBlank(text: string)
    ensures ParseTargetNamespaces(Text(text)).Failure? <==> forall c :: c in text ==> c == ',' || IsSpace(c)
  {
    NoNames(Split(text));
    SplitCharacters(text);
  }

  lemma {:induction false} NoNames(pieces: seq<string>)
    ensures Names(pieces) == [] <==> forall piece :: piece in pieces ==> Strip(piece) == []
    decreases pieces
  {
    if pieces != [] {
      NoNames(pieces[1..]);
      assert forall piece :: piece in pieces <==> piece == pieces[0] || piece in pieces[1..];
    }
  }

  lemma {:induction false} StripEmpty(s: string)
    ensures Strip(s) == [] <==> forall c :: c in s ==> IsSpace(c)
    decreases |s|
  {
    if s != [] {
      if IsSpace(s[0]) {
        StripEmpty(s[1..]);
        assert s == [s[0]] + s[1..];
      } else {
        KeepsFirst(s);
      }
    }
  }

  lemma {:induction false} KeepsFirst(s: string)
    requires s != [] && !IsSpace(s[0])
    ensures StripRight(s) != []
    decreases |s|
  {
    if IsSpace(s[|s| - 1]) {
      KeepsFirst(s[..|s| - 1]);
    }
  }

  /** The characters of the pieces are those of the text without its commas. */
  lemma {:induction false} SplitCharacters(text: string)
    ensures (forall piece :: piece in Split(text) ==> Strip(piece) == [])
            <==> (forall c :: c in text ==> c == ',' || IsSpace(c))
    decreases text
  {
    if text == [] {
      StripEmpty([]);
    } else {
      var rest := Split(text[1..]);
      SplitCharacters(text[1..]);
      assert text == [text[0]] + text[1..];
      assert rest == [rest[0]] + rest[1..];
      StripEmpty([]);
      StripEmpty(rest[0]);
      StripEmpty([text[0]] + rest[0]);
      assert forall piece :: piece in rest <==> piece == rest[0] || piece in rest[1..];
      if text[0] == ',' {
        assert forall piece :: piece in Split(text) <==> piece == [] || piece in rest;
      } else {
        assert forall piece :: piece in Split(text) <==> piece == [text[0]] + rest[0] || piece in rest[1..];
        assert ([text[0]] + rest[0])[0] == text[0];
        assert forall c :: c in [text[0]] + rest[0] <==> c == text[0] || c in rest[0];
      }
    }
  }

  // ----- padded lists -----

  /** The 29 characters that count as white space, one by one. */
  lemma WhiteSpace(c: char)
    ensures IsSpace(c) <==>
              c in ['\t', '\n', '\U{b}', '\U{c}', '\r', '\U{1c}', '\U{1d}', '\U{1e}', '\U{1f}', ' ',
                    '\U{85}', '\U{a0}', '\U{1680}', '\U{2000}', '\U{2001}', '\U{2002}', '\U{2003}', '\U{2004}',
                    '\U{2005}', '\U{2006}', '\U{2007}', '\U{2008}', '\U{2009}', '\U{200a}',
                    '\U{2028}', '\U{2029}', '\U{202f}', '\U{205f}', '\U{3000}']
  {
  }

  predicate AllSpace(s: string) {
    forall k :: 0 <= k < |s| ==> IsSpace(s[k])
  }

  /** A name, or nothing, with white space on either side. */
  datatype Padded = Padded(left: string, name: string, right: string) {
    function Text(): string {
      left + name + right
    }

    ghost predicate Valid() {
      AllSpace(left) && AllSpace(right) && (name == "" || IsName(name))
    }
  }

  lemma {:induction false} StripLeftSkips(left: string, rest: string)
    requires AllSpace(left)
    ensures StripLeft(left + rest) == StripLeft(rest)
    decreases left
  {
    if left == [] {
      assert left + rest == rest;
    } else {
      assert (left + rest)[1..] == left[1..] + rest;
      StripLeftSkips(left[1..], rest);
    }
  }

  lemma {:induction false} StripRightSkips(rest: string, right: string)
    requires AllSpace(right)
    ensures StripRight(rest + right) == StripRight(rest)
    decreases right
  {
    if right == [] {
      assert rest + right == rest;
    } else {
      assert (rest + right)[..|rest + right| - 1] == rest + right[..|right| - 1];
      StripRightSkips(rest, right[..|right| - 1]);
    }
  }

  lemma StripPadded(p: Padded)
    requires p.Valid()
    ensures Strip(p.Text()) == p.name
  {
    assert p.Text() == p.left + (p.name + p.right);
    StripLeftSkips(p.left, p.name + p.right);
    if p.name == "" {
      assert p.name + p.right == p.right + "" && "" + p.right == p.right;
      StripLeftSkips(p.right, "");
    } else {
      assert (p.name + p.right)[0] == p.name[0];
      StripRightSkips(p.name, p.right);
    }
  }

  function Texts(padded: seq<Padded>): seq<string> {
    if padded == [] then [] else [padded[0].Text()] + Texts(padded[1..])
  }

  /** The names in their order, without the places where there is none. */
  function NamesOf(padded: seq<Padded>): seq<string> {
    if padded == [] then []
    else (if padded[0].name != "" then [padded[0].name] else []) + NamesOf(padded[1..])
  }

  ghost predicate AllValid(padded: seq<Padded>) {
    forall k :: 0 <= k < |padded| ==> padded[k].Valid()
  }

  lemma {:induction false} TextsAreClean(padded: seq<Padded>)
    requires AllValid(padded)
    ensures |Texts(padded)| == |padded|
    ensures forall piece :: piece in Texts(padded) ==> ',' !in piece
    ensures Names(Texts(padded)) == NamesOf(padded)
    decreases padded
  {
    if padded != [] {
      var p := padded[0];
      assert ',' !in p.Text() by {
        assert p.Valid();
        assert forall k :: 0 <= k < |p.left| ==> p.left[k] != ',';
        assert forall k :: 0 <= k < |p.right| ==> p.right[k] != ',';
      }
      StripPadded(p);
      TextsAreClean(padded[1..]);
      assert Texts(padded)[1..] == Texts(padded[1..]);
    }
  }

  /**
   However the names are padded, and whatever blank places there are between the commas, parsing
   returns exactly the names, stripped and in order; without any name it is rejected.
   */
  lemma ParsePadded(padded: seq<Padded>)
    requires AllValid(padded)
    ensures ParseTargetNamespaces(Text(Join(Texts(padded))))
         == if NamesOf(padded) == [] then Failure(NoNamespace) else Success(NamesOf(padded))
    ensures ParseTargetNamespaces(NotText) == Failure(NotAString)
  {
    if padded == [] {
      ParseUndoesJoin([]);
    } else {
      TextsAreClean(padded);
      SplitJoin(Texts(padded));
    }
  }

  lemma {:induction false} LeftPart(s: string) returns (left: string)
    ensures AllSpace(left) && s == left + StripLeft(s)
    decreases s
  {
    if s != [] && IsSpace(s[0]) {
      left := LeftPart(s[1..]);
      left := [s[0]] + left;
    } else {
      left := [];
    }
  }

  lemma {:induction false} RightPart(s: string) returns (right: string)
    ensures AllSpace(right) && s == StripRight(s) + right
    decreases |s|
  {
    if s != [] && IsSpace(s[|s| - 1]) {
      right := RightPart(s[..|s| - 1]);
      right := right + [s[|s| - 1]];
    } else {
      right := [];
    }
  }

  lemma {:induction false} PiecesArePadded(pieces: seq<string>) returns (padded: seq<Padded>)
    requires forall piece :: piece in pieces ==> ',' !in piece
    ensures AllValid(padded) && Texts(padded) == pieces
    decreases pieces
  {
    padded := [];
    if pieces != [] {
      var s := pieces[0];
      var left := LeftPart(s);
      var right := RightPart(StripLeft(s));
      StripGivesName(s);
      var rest := PiecesArePadded(pieces[1..]);
      Associative(left, Strip(s), right);
      var p := Padded(left, Strip(s), right);
      assert p.Text() == s && p.Valid();
      padded := [p] + rest;
      assert padded[1..] == rest && pieces == [s] + pieces[1..];
    }
  }

  lemma {:induction false} JoinSplit(text: string)
    ensures Join(Split(text)) == text
    decreases text
  {
    if text != [] {
      JoinSplit(text[1..]);
      var rest := Split(text[1..]);
      assert rest == [rest[0]] + rest[1..];
      if text[0] == ',' {
        assert Split(text)[1..] == rest;
        assert Join(Split(text)) == [] + "," + text[1..];
      } else {
        assert Split(text)[1..] == rest[1..];
        if |rest| > 1 {
          assert [text[0]] + rest[0] + "," + Join(rest[1..]) == [text[0]] + (rest[0] + "," + Join(rest[1..]));
        }
      }
      assert text == [text[0]] + text[1..];
    }
  }

  /** Every text is such a list, so the above says what parsing returns on every input. */
  lemma EveryTextIsPadded(text: string) returns (padded: seq<Padded>)
    ensures AllValid(padded) && padded != [] && Join(Texts(padded)) == text
  {
    SplitIsCommaFree(text);
    padded := PiecesArePadded(Split(text));
    JoinSplit(text);
  }
}
