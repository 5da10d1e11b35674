/**
 * The input checks of `AppController.start_migration`: an ordered chain of
 * checks over the form's fields, the first failing one deciding the error,
 * and the comma-separated source list parser.
 */
module Validation {
  import opened Wrappers
  import opened Numerals
  import opened Transport

  /** The fields of the form as the entries return them. `dateChecked` is the
      checkbox value (1 when ticked). */
  datatype Form = Form(
    apiId: string,
    apiHash: string,
    sourceIds: string,
    targetId: string,
    dateChecked: int,
    selectedDate: Date)

  /** The checks, in the order they are made. */
  datatype ValidationError =
    | MissingApiCredentials
    | MissingSources
    | NonIntegerSource
    | MissingTarget
    | NonIntegerTarget

  /** What a valid form hands to the engine. */
  datatype Request = Request(sources: seq<int>, target: int, startDate: Option<DateTime>)

  /** The pieces the comprehension keeps: stripped, blank ones dropped, in order. */
  function Kept(pieces: seq<string>): (kept: seq<string>)
    ensures |kept| <= |pieces|
    ensures forall i :: 0 <= i < |kept| ==> kept[i] != []
    decreases |pieces|
  {
    if pieces == [] then []
    else
      var s := Strip(pieces[0]);
      (if s == [] then [] else [s]) + Kept(pieces[1..])
  }

  /** Every string is a decimal integer literal. */
  predicate AllIntegers(strs: seq<string>) {
    forall i :: 0 <= i < |strs| ==> ParseInt(strs[i]).Some?
  }

  /** `int()` applied to each kept piece, in order: the values, with
      duplicates, or `None` (a `ValueError`) when any piece is not an integer
      literal. */
  function ParseAll(strs: seq<string>): (r: Option<seq<int>>)
    ensures r.Some? <==> AllIntegers(strs)
    ensures r.Some? ==> |r.value| == |strs|
    ensures r.Some? ==> forall i :: 0 <= i < |strs| ==> ParseInt(strs[i]) == Some(r.value[i])
    decreases |strs|
  {
    if strs == [] then Some([])
    else
      var rest := ParseAll(strs[1..]);
      assert forall i :: 1 <= i < |strs| ==> strs[i] == strs[1..][i - 1];
      match ParseInt(strs[0])
      case None => None
      case Some(v) =>
        match rest
        case None => None
        case Some(vs) => Some([v] + vs)
  }

  /** A single piece is kept, stripped, exactly when it is not blank. */
  lemma KeptOne(p: string)
    ensures Kept([p]) == if Blank(p) then [] else [Strip(p)]
  {
    assert [p][1..] == [];
  }

  /** The comprehension works piece by piece: keeping the pieces of two runs
      of text keeps those of the first, then those of the second, in order.
      With `KeptOne` this determines `Kept` on every input. */
  lemma {:induction false} KeptConcat(a: seq<string>, b: seq<string>)
    ensures Kept(a + b) == Kept(a) + Kept(b)
    decreases |a|
  {
    if a == [] {
      assert a + b == b;
    } else {
      var s := Strip(a[0]);
      var head := if s == [] then [] else [s];
      calc {
        Kept(a + b);
      == { assert (a + b)[0] == a[0]; assert (a + b)[1..] == a[1..] + b; }
        head + Kept(a[1..] + b);
      == { KeptConcat(a[1..], b); }
        head + (Kept(a[1..]) + Kept(b));
      }
    }
  }

  /** `[int(p.strip()) for p in pieces if p.strip()]`. */
  function ParsePieces(pieces: seq<string>): Option<seq<int>> {
    ParseAll(Kept(pieces))
  }

  /** The source entry: stripped, split on commas, and every non-blank piece
      parsed after stripping. */
  function ParseSources(text: string): Option<seq<int>>
  {
    ParsePieces(Split(Strip(text), ','))
  }

  /** What the comprehension gives: it succeeds exactly when every kept piece
      is an integer literal, and then gives one value per kept piece, in
      order, duplicates included. */
  lemma ParsePiecesOutcome(pieces: seq<string>)
    ensures var kept := Kept(pieces);
            && (ParsePieces(pieces).Some? <==> AllIntegers(kept))
            && (ParsePieces(pieces).Some? ==> |ParsePieces(pieces).value| == |kept|)
            && (ParsePieces(pieces).Some? ==>
                  forall i :: 0 <= i < |kept| ==> ParseInt(kept[i]) == Some(ParsePieces(pieces).value[i]))
  {
    var kept := Kept(pieces);
    assert ParsePieces(pieces) == ParseAll(kept);
  }

  /** One piece that is not an integer literal, wherever it stands, rejects
      the whole list. */
  lemma OneBadPieceRejects(pieces: seq<string>, j: nat)
    requires j < |pieces| && !Blank(pieces[j]) && ParseInt(Strip(pieces[j])).None?
    ensures ParsePieces(pieces) == None
  {
    assert pieces == pieces[..j] + ([pieces[j]] + pieces[j + 1..]);
    KeptConcat(pieces[..j], [pieces[j]] + pieces[j + 1..]);
    KeptConcat([pieces[j]], pieces[j + 1..]);
    KeptOne(pieces[j]);
    var kept := Kept(pieces);
    assert kept[|Kept(pieces[..j])|] == Strip(pieces[j]);
  }

  /** Midnight of the selected date when the checkbox is ticked. */
  function StartDate(f: Form): (d: Option<DateTime>)
    ensures d.Some? <==> f.dateChecked == 1
    ensures d.Some? ==> d.value == DateTime(f.selectedDate, 0, 0, 0, 0)
  {
    if f.dateChecked == 1 then Some(DateTime(f.selectedDate, 0, 0, 0, 0)) else None
  }

  /** The validator: each check runs only when every earlier one passed, and
      the first failing check decides the error. */
  function Validate(f: Form): (r: Result<Request, ValidationError>)
    ensures r == Err(MissingApiCredentials) <==> Blank(f.apiId) || Blank(f.apiHash)
    ensures r == Err(MissingSources) <==>
      !Blank(f.apiId) && !Blank(f.apiHash) && Blank(f.sourceIds)
    ensures r == Err(NonIntegerSource) <==>
      !Blank(f.apiId) && !Blank(f.apiHash) && !Blank(f.sourceIds) && ParseSources(f.sourceIds).None?
    ensures r == Err(MissingTarget) <==>
      !Blank(f.apiId) && !Blank(f.apiHash) && !Blank(f.sourceIds) && ParseSources(f.sourceIds).Some?
      && Blank(f.targetId)
    ensures r == Err(NonIntegerTarget) <==>
      !Blank(f.apiId) && !Blank(f.apiHash) && !Blank(f.sourceIds) && ParseSources(f.sourceIds).Some?
      && !Blank(f.targetId) && ParseInt(Strip(f.targetId)).None?
    ensures r.Ok? ==>
      && Some(r.value.sources) == ParseSources(f.sourceIds)
      && Some(r.value.target) == ParseInt(Strip(f.targetId))
      && r.value.startDate == StartDate(f)
  {
    if Strip(f.apiId) == [] || Strip(f.apiHash) == [] then Err(MissingApiCredentials)
    else if Strip(f.sourceIds) == [] then Err(MissingSources)
    else match ParseSources(f.sourceIds)
      case None => Err(NonIntegerSource)
      case Some(sources) =>
        var targetText := Strip(f.targetId);
        if targetText == [] then Err(MissingTarget)
        else match ParseInt(targetText)
          case None => Err(NonIntegerTarget)
          case Some(target) => Ok(Request(sources, target, StartDate(f)))
  }

  /** The ids written in decimal. */
  function Strs(xs: seq<int>): (strs: seq<string>)
    ensures |strs| == |xs|
    ensures forall i :: 0 <= i < |xs| ==> strs[i] == Str(xs[i])
  {
    seq(|xs|, i requires 0 <= i < |xs| => Str(xs[i]))
  }

  /** Every kept piece of the decimal ids is the id itself. */
  lemma {:induction false} KeptStrs(xs: seq<int>)
    ensures Kept(Strs(xs)) == Strs(xs)
    decreases |xs|
  {
    if xs != [] {
      var s := Str(xs[0]);
      StripTrimmed(s);
      KeptStrs(xs[1..]);
      assert Strs(xs)[1..] == Strs(xs[1..]);
    }
  }

  /** Round trip: any non-empty list of ids, written in decimal and joined
      with commas, parses back to the same list, in the same order and with
      the same duplicates. */
  lemma SourcesRoundTrip(xs: seq<int>)
    requires xs != []
    ensures ParseSources(Join(Strs(xs), ',')) == Some(xs)
  {
    var text := Join(Strs(xs), ',');
    StrsJoinTrimmed(xs);
    StrsSplitBack(xs);
    KeptStrs(xs);
    ParseStrs(xs);
    assert Split(Strip(text), ',') == Strs(xs);
  }

  /** A comma join of decimal ids is already stripped. */
  lemma StrsJoinTrimmed(xs: seq<int>)
    requires xs != []
    ensures Strip(Join(Strs(xs), ',')) == Join(Strs(xs), ',')
  {
    JoinOfStrsTrimmed(Strs(xs));
    StripTrimmed(Join(Strs(xs), ','));
  }

  /** Splitting a comma join of decimal ids gives the pieces back. */
  lemma StrsSplitBack(xs: seq<int>)
    requires xs != []
    ensures Split(Join(Strs(xs), ','), ',') == Strs(xs)
  {
    var strs := Strs(xs);
    forall i | 0 <= i < |strs| ensures ',' !in strs[i] {
      NoCommaInStr(xs[i]);
    }
    SplitOfJoin(strs, ',');
  }

  /** Each decimal id parses back to the id. */
  lemma ParseStrs(xs: seq<int>)
    ensures ParseAll(Strs(xs)) == Some(xs)
  {
    var r := ParseAll(Strs(xs));
    assert r.Some?;
    assert r.value == xs;
  }

  lemma NoCommaInStr(n: int)
    ensures ',' !in Str(n)
  {
    var s := Str(n);
    assert forall i :: 0 <= i < |s| ==> s[i] != ',';
  }

  /** A comma join of decimal ids has no whitespace at either end. */
  lemma JoinOfStrsTrimmed(strs: seq<string>)
    requires |strs| >= 1
    requires forall i :: 0 <= i < |strs| ==> strs[i] != [] && forall k :: 0 <= k < |strs[i]| ==> !IsSpace(strs[i][k])
    ensures var t := Join(strs, ','); t != [] && !IsSpace(t[0]) && !IsSpace(t[|t| - 1])
  {
    JoinEnds(strs, ',');
  }

  /** A join of non-empty pieces starts with the first piece's first character
      and ends with the last piece's last character. */
  lemma {:induction false} JoinEnds(pieces: seq<string>, sep: char)
    requires |pieces| >= 1
    requires forall i :: 0 <= i < |pieces| ==> pieces[i] != []
    ensures var t := Join(pieces, sep);
            && t != []
            && t[0] == pieces[0][0]
            && t[|t| - 1] == pieces[|pieces| - 1][|pieces[|pieces| - 1]| - 1]
    decreases |pieces|
  {
    if |pieces| > 1 {
      JoinEnds(pieces[1..], sep);
    }
  }

  /** Source text made of commas and whitespace, with at least one comma, is
      not blank, so it passes the source check and parses to the empty list;
      the engine is then handed no sources and rejects them. */
  lemma SeparatorsOnlyGiveNoSources(text: string)
    requires forall i :: 0 <= i < |text| ==> text[i] == ',' || IsSpace(text[i])
    requires ',' in text
    ensures !Blank(text)
    ensures ParseSources(text) == Some([])
  {
    var c :| 0 <= c < |text| && text[c] == ',';
    assert !IsSpace(text[c]);
    var t := Strip(text);
    StripOfSeparators(text);
    SplitOfSeparatorsIsBlank(t, ',');
    KeptBlank(Split(t, ','));
  }

  /** Stripping keeps a slice, so text of commas and whitespace stays so. */
  lemma StripOfSeparators(text: string)
    requires forall i :: 0 <= i < |text| ==> text[i] == ',' || IsSpace(text[i])
    ensures forall i :: 0 <= i < |Strip(text)| ==> Strip(text)[i] == ',' || IsSpace(Strip(text)[i])
  {
    var t := Strip(text);
    StripIsSlice(text);
    var off := |text| - |StripLeft(text)|;
    forall i | 0 <= i < |t| ensures t[i] == ',' || IsSpace(t[i]) {
      assert t[i] == text[off + i];
    }
  }

  lemma {:induction false} KeptBlank(pieces: seq<string>)
    requires forall i :: 0 <= i < |pieces| ==> Blank(pieces[i])
    ensures Kept(pieces) == []
    decreases |pieces|
  {
    if pieces != [] {
      KeptBlank(pieces[1..]);
    }
  }
}
