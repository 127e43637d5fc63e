/**
 * Catalog data adapters of the discovery UI (models/Adapters.ts):
 * capitalising localised names, indexing localised fields, ratings and
 * images by key, free-content detection, runtime formatting and the
 * "is this program on air" test.
 */
module Adapters {
  import opened Js
  import opened Strings
  import opened Wrappers
  import Keyed

  /** `toUpperCase` on one character; only the ASCII letters a-z are mapped. */
  function UpperChar(c: char): char
  {
    if 'a' <= c <= 'z' then ((c as int) - 32) as char else c
  }

  /** `capitalize`: '' for a non-string; otherwise the first character upper-cased and the rest kept. */
  function Capitalize(v: Value): (r: string)
    ensures !v.Str? ==> r == ""
    ensures v.Str? ==> |r| == |v.s|
    ensures v.Str? && v.s != "" ==> r[0] == UpperChar(v.s[0]) && r[1..] == v.s[1..]
  {
    if !v.Str? then "" else if v.s == "" then "" else [UpperChar(v.s[0])] + v.s[1..]
  }

  function CapitalizeEach(ws: seq<string>): (r: seq<string>)
    ensures |r| == |ws|
    ensures forall i :: 0 <= i < |ws| ==> r[i] == Capitalize(Str(ws[i]))
  {
    if ws == [] then [] else [Capitalize(Str(ws[0]))] + CapitalizeEach(ws[1..])
  }

  /** Every space-separated word capitalized, the spaces kept where they were. */
  function CapitalizeWords(s: string): string
  {
    Join(CapitalizeEach(Split(s, ' ')), " ")
  }

  /**
   * Reference definition: a character is upper-cased exactly when it starts
   * the string or follows a space (`atStart` says whether the previous
   * character was a space or there was none).
   */
  function CapitalizeAfterSpaces(s: string, atStart: bool): (r: string)
    ensures |r| == |s|
  {
    if s == [] then []
    else [if atStart then UpperChar(s[0]) else s[0]] + CapitalizeAfterSpaces(s[1..], s[0] == ' ')
  }

  /** The text after the first piece of a split, re-joined with capitalisation. */
  function Tail(ws: seq<string>): string
  {
    if ws == [] then "" else " " + Join(CapitalizeEach(ws), " ")
  }

  /** Capitalisation after spaces, described through the pieces of a split on ' '. */
  predicate PiecesCapitalized(s: string)
  {
    var ws := Split(s, ' ');
    CapitalizeAfterSpaces(s, false) == ws[0] + Tail(ws[1..]) &&
    CapitalizeAfterSpaces(s, true) == Capitalize(Str(ws[0])) + Tail(ws[1..])
  }

  lemma {:induction false} SplitPieces(s: string)
    ensures PiecesCapitalized(s)
  {
    if s != [] {
      SplitPieces(s[1..]);
      if s[0] == ' ' {
        SplitPiecesAtSpace(s);
      } else {
        SplitPiecesInWord(s);
      }
    }
  }

  /** The step of SplitPieces over a leading space: it starts a new piece. */
  lemma SplitPiecesAtSpace(s: string)
    requires s != [] && s[0] == ' ' && PiecesCapitalized(s[1..])
    ensures PiecesCapitalized(s)
  {
    var rest := Split(s[1..], ' ');
    var ws := Split(s, ' ');
    var c0 := Capitalize(Str(rest[0]));
    var tl := Tail(rest[1..]);
    assert ws[0] == "" && ws[1..] == rest by {
      assert ws == [""] + rest;
    }
    assert CapitalizeAfterSpaces(s[1..], true) == c0 + tl;
    assert Tail(ws[1..]) == " " + c0 + tl by {
      TailCons(rest);
    }
    assert CapitalizeAfterSpaces(s, false) == " " + c0 + tl by {
      assert CapitalizeAfterSpaces(s, false) == [' '] + (c0 + tl);
      Assoc([' '], c0, tl);
    }
    assert CapitalizeAfterSpaces(s, true) == " " + c0 + tl by {
      assert CapitalizeAfterSpaces(s, true) == [' '] + (c0 + tl);
      Assoc([' '], c0, tl);
    }
    assert Capitalize(Str(ws[0])) == "";
  }

  /** Concatenation is associative. */
  lemma Assoc(a: string, b: string, c: string)
    ensures a + (b + c) == a + b + c
  {
  }

  /** Tail of a non-empty piece list: a space, the capitalised first piece, then the tail of the rest. */
  lemma TailCons(ws: seq<string>)
    requires ws != []
    ensures Tail(ws) == " " + Capitalize(Str(ws[0])) + Tail(ws[1..])
  {
    var c0 := Capitalize(Str(ws[0]));
    var cs := CapitalizeEach(ws[1..]);
    assert CapitalizeEach(ws) == [c0] + cs;
    JoinCons(c0, cs, " ");
    if ws[1..] == [] {
      assert cs == [];
      assert Tail(ws) == " " + c0 + "";
    } else {
      var j := Join(cs, " ");
      assert Tail(ws[1..]) == " " + j;
      assert Tail(ws) == " " + (c0 + " " + j);
      Assoc(" ", c0 + " ", j);
      Assoc(c0, " ", j);
      Assoc(" ", c0, " " + j);
    }
  }

  /** The step of SplitPieces over a leading non-space: it extends the first piece. */
  lemma SplitPiecesInWord(s: string)
    requires s != [] && s[0] != ' ' && PiecesCapitalized(s[1..])
    ensures PiecesCapitalized(s)
  {
    var rest := Split(s[1..], ' ');
    var ws := Split(s, ' ');
    var tl := Tail(rest[1..]);
    var w := [s[0]] + rest[0];
    assert ws[0] == w && ws[1..] == rest[1..] by {
      assert ws == [w] + rest[1..];
    }
    assert CapitalizeAfterSpaces(s[1..], false) == rest[0] + tl;
    assert CapitalizeAfterSpaces(s, false) == w + tl by {
      assert CapitalizeAfterSpaces(s, false) == [s[0]] + (rest[0] + tl);
      Assoc([s[0]], rest[0], tl);
    }
    assert CapitalizeAfterSpaces(s, true) == Capitalize(Str(w)) + tl by {
      assert CapitalizeAfterSpaces(s, true) == [UpperChar(s[0])] + (rest[0] + tl);
      assert w[1..] == rest[0];
      assert Capitalize(Str(w)) == [UpperChar(s[0])] + rest[0];
      Assoc([UpperChar(s[0])], rest[0], tl);
    }
  }

  /** Every word's first character is upper-cased and nothing else changes. */
  lemma CapitalizeWordsSpec(s: string)
    ensures CapitalizeWords(s) == CapitalizeAfterSpaces(s, true)
    ensures |CapitalizeWords(s)| == |s|
  {
    var ws := Split(s, ' ');
    SplitPieces(s);
    JoinCons(Capitalize(Str(ws[0])), CapitalizeEach(ws[1..]), " ");
    assert ws == [ws[0]] + ws[1..];
    assert CapitalizeEach(ws) == [Capitalize(Str(ws[0]))] + CapitalizeEach(ws[1..]);
  }

  /** The `n` of a `LocalizedField`: a string, a list of strings (genres) or any other value. */
  datatype LocalizedValue = Text(s: string) | Texts(items: seq<string>) | Other(v: Value)

  datatype LocalizedField = LocalizedField(lang: string, n: LocalizedValue)

  /** CapitalizeWordsSpec for every string of a list. */
  lemma CapitalizeWordsEach(items: seq<string>)
    ensures forall i :: 0 <= i < |items| ==> CapitalizeWords(items[i]) == CapitalizeAfterSpaces(items[i], true)
  {
    forall i | 0 <= i < |items| {
      CapitalizeWordsSpec(items[i]);
    }
  }

  /** The value stored for one field by `adaptLocalizedValues`. */
  function AdaptedValue(n: LocalizedValue, shouldCapitalize: bool): (r: LocalizedValue)
    ensures !shouldCapitalize ==> r == n
    ensures n.Other? ==> r == n
    ensures n.Text? ==> r.Text? && |r.s| == |n.s|
    ensures n.Texts? ==> r.Texts? && |r.items| == |n.items|
    ensures shouldCapitalize && n.Text? ==> r.s == CapitalizeAfterSpaces(n.s, true)
    ensures shouldCapitalize && n.Texts? ==> forall i :: 0 <= i < |n.items| ==> r.items[i] == CapitalizeAfterSpaces(n.items[i], true)
  {
    CapitalizeWordsSpec(if n.Text? then n.s else "");
    CapitalizeWordsEach(if n.Texts? then n.items else []);
    if !shouldCapitalize then n
    else match n
      case Texts(items) => Texts(seq(|items|, i requires 0 <= i < |items| => CapitalizeWords(items[i])))
      case Text(s) => Text(CapitalizeWords(s))
      case Other(_) => n
  }

  /** `adaptLocalizedValues`: a missing list gives the empty map, otherwise lang -> adapted n. */
  function AdaptLocalizedValues(lon: Option<seq<LocalizedField>>, shouldCapitalize: bool): (r: map<string, LocalizedValue>)
    ensures lon.None? ==> r == map[]
  {
    if lon.None? then map[]
    else Keyed.IndexBy(lon.value, (f: LocalizedField) => f.lang, (f: LocalizedField) => AdaptedValue(f.n, shouldCapitalize))
  }

  /** The languages of the map are exactly those of the list. */
  lemma AdaptLocalizedValuesKeys(lon: seq<LocalizedField>, shouldCapitalize: bool, lang: string)
    ensures lang in AdaptLocalizedValues(Some(lon), shouldCapitalize) <==> exists i :: 0 <= i < |lon| && lon[i].lang == lang
  {
    Keyed.IndexByKeys(lon, (f: LocalizedField) => f.lang, (f: LocalizedField) => AdaptedValue(f.n, shouldCapitalize), lang);
  }

  /** Each language maps to the adapted value of its last entry. */
  lemma AdaptLocalizedValuesLastWins(lon: seq<LocalizedField>, shouldCapitalize: bool, i: nat)
    requires i < |lon|
    requires forall j :: i < j < |lon| ==> lon[j].lang != lon[i].lang
    ensures lon[i].lang in AdaptLocalizedValues(Some(lon), shouldCapitalize)
    ensures AdaptLocalizedValues(Some(lon), shouldCapitalize)[lon[i].lang] == AdaptedValue(lon[i].n, shouldCapitalize)
  {
    Keyed.IndexByLastWins(lon, (f: LocalizedField) => f.lang, (f: LocalizedField) => AdaptedValue(f.n, shouldCapitalize), i);
  }

  datatype Rating = Rating(s: string, v: string)
  datatype ProgramRating = ProgramRating(b: string, c: string)
  datatype DataStoreImage = DataStoreImage(key: string, url: string)

  function AdaptRatingValues(ratings: seq<Rating>): map<string, string>
  {
    Keyed.IndexBy(ratings, (r: Rating) => r.s, (r: Rating) => r.v)
  }

  function AdaptProgramRatingValues(ratings: seq<ProgramRating>): map<string, string>
  {
    Keyed.IndexBy(ratings, (r: ProgramRating) => r.b, (r: ProgramRating) => r.c)
  }

  function AdaptDataStoreImage(images: seq<DataStoreImage>): map<string, string>
  {
    Keyed.IndexBy(images, (d: DataStoreImage) => d.key, (d: DataStoreImage) => d.url)
  }

  /** Rating systems map to the value of their last rating; nothing else is a key. */
  lemma AdaptRatingValuesSpec(ratings: seq<Rating>, i: nat, system: string)
    requires i < |ratings|
    requires forall j :: i < j < |ratings| ==> ratings[j].s != ratings[i].s
    ensures ratings[i].s in AdaptRatingValues(ratings)
    ensures AdaptRatingValues(ratings)[ratings[i].s] == ratings[i].v
    ensures system in AdaptRatingValues(ratings) <==> exists k :: 0 <= k < |ratings| && ratings[k].s == system
  {
    Keyed.IndexByLastWins(ratings, (r: Rating) => r.s, (r: Rating) => r.v, i);
    Keyed.IndexByKeys(ratings, (r: Rating) => r.s, (r: Rating) => r.v, system);
  }

  lemma AdaptProgramRatingValuesSpec(ratings: seq<ProgramRating>, i: nat, body: string)
    requires i < |ratings|
    requires forall j :: i < j < |ratings| ==> ratings[j].b != ratings[i].b
    ensures ratings[i].b in AdaptProgramRatingValues(ratings)
    ensures AdaptProgramRatingValues(ratings)[ratings[i].b] == ratings[i].c
    ensures body in AdaptProgramRatingValues(ratings) <==> exists k :: 0 <= k < |ratings| && ratings[k].b == body
  {
    Keyed.IndexByLastWins(ratings, (r: ProgramRating) => r.b, (r: ProgramRating) => r.c, i);
    Keyed.IndexByKeys(ratings, (r: ProgramRating) => r.b, (r: ProgramRating) => r.c, body);
  }

  /** Image keys map to the url of their last image; nothing else is a key. */
  lemma AdaptDataStoreImageSpec(images: seq<DataStoreImage>, i: nat, key: string)
    requires i < |images|
    requires forall j :: i < j < |images| ==> images[j].key != images[i].key
    ensures images[i].key in AdaptDataStoreImage(images)
    ensures AdaptDataStoreImage(images)[images[i].key] == images[i].url
    ensures key in AdaptDataStoreImage(images) <==> exists k :: 0 <= k < |images| && images[k].key == key
  {
    Keyed.IndexByLastWins(images, (d: DataStoreImage) => d.key, (d: DataStoreImage) => d.url, i);
    Keyed.IndexByKeys(images, (d: DataStoreImage) => d.key, (d: DataStoreImage) => d.url, key);
  }

  /** The rating systems are exactly the keys, whatever the list, the empty one included. */
  lemma AdaptRatingValuesKeys(ratings: seq<Rating>)
    ensures AdaptRatingValues(ratings).Keys == set k | 0 <= k < |ratings| :: ratings[k].s
  {
    forall system ensures system in AdaptRatingValues(ratings) <==> exists k :: 0 <= k < |ratings| && ratings[k].s == system {
      Keyed.IndexByKeys(ratings, (r: Rating) => r.s, (r: Rating) => r.v, system);
    }
  }

  /** The rating bodies are exactly the keys, whatever the list, the empty one included. */
  lemma AdaptProgramRatingValuesKeys(ratings: seq<ProgramRating>)
    ensures AdaptProgramRatingValues(ratings).Keys == set k | 0 <= k < |ratings| :: ratings[k].b
  {
    forall body ensures body in AdaptProgramRatingValues(ratings) <==> exists k :: 0 <= k < |ratings| && ratings[k].b == body {
      Keyed.IndexByKeys(ratings, (r: ProgramRating) => r.b, (r: ProgramRating) => r.c, body);
    }
  }

  /** The image keys are exactly the keys, whatever the list, the empty one included. */
  lemma AdaptDataStoreImageKeys(images: seq<DataStoreImage>)
    ensures AdaptDataStoreImage(images).Keys == set k | 0 <= k < |images| :: images[k].key
  {
    forall key ensures key in AdaptDataStoreImage(images) <==> exists k :: 0 <= k < |images| && images[k].key == key {
      Keyed.IndexByKeys(images, (d: DataStoreImage) => d.key, (d: DataStoreImage) => d.url, key);
    }
  }

  const FreePackage: string := "urn:package:aha:free"

  /** An entitlement's `sp`: absent, a single package string, or a list of packages. */
  datatype ServicePackages = NoPackages | PackageText(s: string) | PackageList(items: seq<string>)

  datatype Entitlement = Entitlement(sp: ServicePackages)

  /** The free package is among the entitlement's packages: a substring of a string value, a member of a list value. */
  predicate IsFreeEntitlement(e: Entitlement)
  {
    match e.sp
    case NoPackages => false
    case PackageText(s) => s != "" && HasSubstring(s, FreePackage)
    case PackageList(items) => FreePackage in items
  }

  /** `checkIsFreeContent`: the loop returns true at the first free entitlement. */
  method CheckIsFreeContent(entitlements: seq<Entitlement>) returns (free: bool)
    ensures free <==> exists i :: 0 <= i < |entitlements| && IsFreeEntitlement(entitlements[i])
  {
    var k := 0;
    while k < |entitlements|
      invariant 0 <= k <= |entitlements|
      invariant forall i :: 0 <= i < k ==> !IsFreeEntitlement(entitlements[i])
    {
      var e := entitlements[k];
      var hit := false;
      match e.sp {
        case NoPackages =>
        case PackageText(s) =>
          hit := s != "" && HasSubstring(s, FreePackage);
        case PackageList(items) =>
          hit := FreePackage in items;
      }
      if hit {
        return true;
      }
      k := k + 1;
    }
    return false;
  }

  /** The whole hours in `seconds`, rounded down. */
  function Hours(seconds: int): int
  {
    seconds / 3600
  }

  /** The whole minutes left once the whole hours are taken out, rounded down. */
  function Minutes(seconds: int): int
  {
    (seconds - Hours(seconds) * 3600) / 60
  }

  /** The parts that `timestamp` joins with a space: an hours part when h > 0, then a minutes part. */
  function TimestampParts(seconds: int, isFullString: bool): seq<string>
  {
    var hourString := if isFullString then "hr" else "h";
    var minuteString := if isFullString then " mins" else "m";
    var mm := Minutes(seconds);
    assert 0 <= mm;
    (if Hours(seconds) > 0 then [NatToString(Hours(seconds)) + hourString] else []) + [NatToString(mm) + minuteString]
  }

  /** `timestamp(seconds, isFullString)`: for example `1h 5m`, or `1hr 5 mins` in full form. */
  function Timestamp(seconds: int, isFullString: bool): string
  {
    Join(TimestampParts(seconds, isFullString), " ")
  }

  /** Minutes stay in 0..59 and the hours and minutes never exceed the input, for every input including negative ones. */
  lemma TimestampBounds(seconds: int)
    ensures 0 <= Minutes(seconds) < 60
    ensures Hours(seconds) * 3600 + Minutes(seconds) * 60 <= seconds < Hours(seconds) * 3600 + Minutes(seconds) * 60 + 60
  {
  }

  /** The minutes part is always emitted, and the hours part appears exactly when seconds >= 3600. */
  lemma TimestampShape(seconds: int, isFullString: bool)
    ensures var parts := TimestampParts(seconds, isFullString);
      |parts| == (if seconds >= 3600 then 2 else 1) &&
      parts[|parts| - 1] == NatToString(Minutes(seconds)) + (if isFullString then " mins" else "m")
    ensures seconds >= 3600 ==>
      Timestamp(seconds, isFullString)
        == NatToString(seconds / 3600) + (if isFullString then "hr" else "h") + " " + NatToString(Minutes(seconds)) + (if isFullString then " mins" else "m")
    ensures seconds < 3600 ==> Timestamp(seconds, isFullString) == NatToString(Minutes(seconds)) + (if isFullString then " mins" else "m")
  {
    assert Hours(seconds) > 0 <==> seconds >= 3600;
    var parts := TimestampParts(seconds, isFullString);
    if seconds >= 3600 {
      JoinCons(parts[0], parts[1..], " ");
      assert parts == [parts[0]] + parts[1..];
    }
  }

  /**
   * The `isProgramActive` getter. `start` and `end` are the airing's epoch
   * times, `None` when the source field is missing or empty; `now` is the clock.
   */
  function IsProgramActive(start: Option<int>, end: Option<int>, now: int): (r: bool)
    ensures r <==> start.Some? && end.Some? && start.value < now < end.value
  {
    if end.None? || start.None? then false else now < end.value && now > start.value
  }

  /**
   * An airing is active on the open interval between its start and its end:
   * never at or before its start, never at or after its end, never without
   * both times, and so never when it ends before it starts.
   */
  lemma ProgramActiveWindow(start: Option<int>, end: Option<int>, now: int)
    ensures start.None? || end.None? ==> !IsProgramActive(start, end, now)
    ensures start.Some? && now <= start.value ==> !IsProgramActive(start, end, now)
    ensures end.Some? && now >= end.value ==> !IsProgramActive(start, end, now)
    ensures IsProgramActive(start, end, now) ==> start.value < end.value
  {
  }

  /** An airing active at two instants is active at every instant between them. */
  lemma ProgramActiveBetween(start: Option<int>, end: Option<int>, t1: int, t: int, t2: int)
    requires t1 <= t <= t2
    requires IsProgramActive(start, end, t1) && IsProgramActive(start, end, t2)
    ensures IsProgramActive(start, end, t)
  {
  }

  /** With both times known and start < end, the airing is active at some instant iff its window holds an integer second. */
  lemma ProgramActiveSomewhere(s: int, e: int)
    ensures (exists now :: IsProgramActive(Some(s), Some(e), now)) <==> s + 1 < e
  {
    if s + 1 < e {
      assert IsProgramActive(Some(s), Some(e), s + 1);
    }
  }
}
