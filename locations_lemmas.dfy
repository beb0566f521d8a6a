/** Properties of location parsing and of the city-table search. */
module LocationLemmas {
  import opened Wrappers
  import opened Js
  import opened ShipmentModel
  import opened Locations

  // ------------------------------------------------------ state codes

  /** A state code is its own state code, so (with the ensures of
      ToStateCode) the result of `toStateCode` is a fixed point of it. */
  lemma StateCodeIsFixedPoint(code: string)
    requires |code| == 2 && IsUpperLetter(code[0]) && IsUpperLetter(code[1])
    ensures ToStateCode(Some(code)) == Some(code)
  {
    StateCodeTrimmed(code);
    StateCodeUpper(code);
    TwoTrimmedLetters(code);
  }

  lemma StateCodeTrimmed(code: string)
    requires IsStateCode(code)
    ensures Trim(code) == code
  {
    assert !IsSpace(code[0]) && !IsSpace(code[|code| - 1]);
    NoEdgeSpaceTrim(code);
  }

  lemma StateCodeUpper(code: string)
    requires IsStateCode(code)
    ensures ToUpper(code) == code
  {
    assert ToUpper(code)[0] == code[0] && ToUpper(code)[1] == code[1];
  }

  lemma TwoTrimmedLetters(code: string)
    requires |code| == 2 && IsAsciiLetter(code[0]) && IsAsciiLetter(code[1]) && Trim(code) == code
    ensures ToStateCode(Some(code)) == Some(ToUpper(code))
  {
    TwoLettersUpperCased(code);
  }

  /** Two letters, in any case and with surrounding blanks, give the
      upper-cased pair. */
  lemma TwoLettersUpperCased(value: string)
    requires |Trim(value)| == 2 && IsAsciiLetter(Trim(value)[0]) && IsAsciiLetter(Trim(value)[1])
    ensures ToStateCode(Some(value)) == Some(ToUpper(Trim(value)))
  {
  }

  /** Any other non-blank input is looked up in the name table by its
      trimmed, lower-cased form. */
  lemma SpelledOutNameLookedUp(value: string)
    requires Trim(value) != ""
    requires !(|Trim(value)| == 2 && IsAsciiLetter(Trim(value)[0]) && IsAsciiLetter(Trim(value)[1]))
    ensures ToStateCode(Some(value)) == StateNameToCode(ToLower(Trim(value)))
  {
  }

  /** A full state name, in any case and with surrounding blanks. */
  lemma NewYorkSpelledOut()
    ensures ToStateCode(Some("  New York ")) == Some("NY")
  {
    var v := "  New York ";
    assert v == "  " + "New York" + " ";
    TrimPadded("  ", "New York", " ");
    NewYorkLowered();
    NewYorkKey();
    SpelledOutNameLookedUp(v);
  }

  lemma NewYorkLowered()
    ensures ToLower("New York") == "new york"
  {
  }

  lemma NewYorkKey()
    ensures StateNameToCode("new york") == Some("NY")
  {
  }

  /** White space around a text with no white space at its ends is trimmed
      off. */
  lemma TrimPadded(a: string, t: string, b: string)
    requires AllSpace(a) && AllSpace(b)
    requires t != [] && !IsSpace(t[0]) && !IsSpace(t[|t| - 1])
    ensures Trim(a + t + b) == t
  {
    assert a + t + b == a + (t + b);
    assert (t + b)[0] == t[0];
    TrimStartPadded(a, t + b);
    TrimEndPadded(t, b);
  }

  lemma {:induction false} TrimStartPadded(a: string, x: string)
    requires AllSpace(a) && x != [] && !IsSpace(x[0])
    ensures TrimStart(a + x) == x
    decreases |a|
  {
    if a == [] {
      assert a + x == x;
    } else {
      var ax := a + x;
      assert ax != [] && ax[0] == a[0] && IsSpace(ax[0]);
      assert ax[1..] == a[1..] + x;
      assert AllSpace(a[1..]) by {
        forall k | 0 <= k < |a[1..]| ensures IsSpace(a[1..][k]) {
          assert a[1..][k] == a[k + 1];
        }
      }
      TrimStartPadded(a[1..], x);
      assert TrimStart(ax) == TrimStart(ax[1..]);
    }
  }

  lemma {:induction false} TrimEndPadded(x: string, b: string)
    requires AllSpace(b) && x != [] && !IsSpace(x[|x| - 1])
    ensures TrimEnd(x + b) == x
    decreases |b|
  {
    if b == [] {
      assert x + b == x;
    } else {
      var xb := x + b;
      assert xb != [] && xb[|xb| - 1] == b[|b| - 1] && IsSpace(xb[|xb| - 1]);
      assert xb[..|xb| - 1] == x + b[..|b| - 1];
      var front := b[..|b| - 1];
      assert AllSpace(front) by {
        forall k | 0 <= k < |front| ensures IsSpace(front[k]) {
          assert front[k] == b[k];
        }
      }
      TrimEndPadded(x, b[..|b| - 1]);
      assert TrimEnd(xb) == TrimEnd(xb[..|xb| - 1]);
    }
  }

  // ------------------------------------------------------ the city table

  /** Matching against the table ignores case. */
  lemma MatchIgnoresCase(table: seq<CityEntry>, value: string)
    ensures TableMatch(table, ToLower(value)) == TableMatch(table, value)
  {
    ToLowerIdempotent(value);
    assert forall e :: NameMatches(e, ToLower(value)) <==> NameMatches(e, value);
    if TableMatch(table, value).Some? {
      var i :| 0 <= i < |table| && NameMatches(table[i], value) && TableMatch(table, value).value == table[i].coords &&
        (forall j :: 0 <= j < i ==> !NameMatches(table[j], value));
      TableMatchFirst(table, ToLower(value), i);
    }
  }

  /** A free-text location without a comma is looked up by its trimmed
      text, so surrounding blanks do not matter. */
  lemma {:induction false} CommaFreeTextUsesTrimmedInput(table: seq<CityEntry>, s: string)
    requires ',' !in s && Trim(s) != ""
    ensures CityCoordinates(table, Text(s)) == TableMatch(table, Trim(s))
  {
    var n := Trim(s);
    CommaFreeCity(s);
    TrimSubstring(s, ',');
    TrimIdempotent(s);
    SingleCandidate(table, n);
  }

  /** The parsed city of a comma-free text is the trimmed text. */
  lemma CommaFreeCity(s: string)
    requires ',' !in s && Trim(s) != ""
    ensures ParseLocation(Text(s)).city == Trim(s)
  {
    var n := Trim(s);
    TrimSubstring(s, ',');
    TrimIdempotent(s);
    SplitWithoutSeparator(n, ',');
    assert TrimmedNonEmpty([n]) == [n] by {
      assert [n][1..] == [];
    }
    assert CommaParts(n) == [n];
  }

  /** A trimmed, comma-free text that is also the city is looked up once. */
  lemma SingleCandidate(table: seq<CityEntry>, n: string)
    requires n != "" && ',' !in n && Trim(n) == n
    ensures MatchCandidates(table, n, n) == TableMatch(table, n)
  {
    assert FirstCommaPart(n) == None;
    assert NonEmpty([n, n]) == [n, n] by {
      assert [n, n][1..] == [n];
      assert NonEmpty([n]) == [n] by {
        assert [n][1..] == [];
      }
    }
    assert SearchValues(table, [n, n]) == TableMatch(table, n) by {
      assert [n, n][1..] == [n];
      assert SearchValues(table, [n]) == TableMatch(table, n) by {
        assert [n][1..] == [];
      }
    }
  }

  /** For a comma-separated location, a match on the first part wins over
      everything else. */
  lemma FirstCommaPartWins(table: seq<CityEntry>, s: string, i: nat)
    requires ',' in Trim(s)
    requires CommaParts(Trim(s)) != []
    requires i < |table| && NameMatches(table[i], CommaParts(Trim(s))[0])
    requires forall j :: 0 <= j < i ==> !NameMatches(table[j], CommaParts(Trim(s))[0])
    ensures CityCoordinates(table, Text(s)) == Some(table[i].coords)
  {
    TableMatchFirst(table, CommaParts(Trim(s))[0], i);
    FirstPartHit(table, s);
  }

  /** A comma-separated location whose first part matches is answered by
      that match. */
  lemma FirstPartHit(table: seq<CityEntry>, s: string)
    requires ',' in Trim(s) && CommaParts(Trim(s)) != []
    requires TableMatch(table, CommaParts(Trim(s))[0]).Some?
    ensures CityCoordinates(table, Text(s)) == TableMatch(table, CommaParts(Trim(s))[0])
  {
    assert s != "";
    TextSearchesCandidates(table, s);
    assert FirstCommaPart(Trim(s)) == Some(CommaParts(Trim(s))[0]);
  }

  /** An address object with only a (trimmed, comma-free) city is looked up
      by that city; with no match in the table the answer is none. */
  lemma AddressLookedUpByCity(table: seq<CityEntry>, c: string)
    requires c != "" && ',' !in c && Trim(c) == c
    ensures CityCoordinates(table, Fields(Some(c), None, None, None, None, None)) == TableMatch(table, c)
  {
    var location := Fields(Some(c), None, None, None, None, None);
    assert ParseLocation(location).city == c;
    assert NonEmpty([c, "", ""]) == [c] by {
      assert [c, "", ""][1..] == ["", ""];
      assert ["", ""][1..] == [""];
      assert [""][1..] == [];
    }
    assert OriginalInput(location) == c;
    assert FirstCommaPart(c).None?;
  }

  /** Free text is searched by its trimmed form and its parsed city. */
  lemma TextSearchesCandidates(table: seq<CityEntry>, s: string)
    requires s != ""
    ensures CityCoordinates(table, Text(s)) == MatchCandidates(table, Trim(s), ParseLocation(Text(s)).city)
  {
  }

  // ------------------------------------------------------ parsing

  /** Free text: the city is the first comma part and the country the
      third, else 'CM'. */
  lemma TextCityAndCountry(s: string)
    requires Trim(s) != ""
    ensures var parts := CommaParts(Trim(s));
      var r := ParseLocation(Text(s));
      && r.city == (if |parts| >= 1 then parts[0] else "")
      && r.country == (if |parts| >= 3 then parts[2] else "CM")
  {
    assert ParseLocation(Text(s)) == ParseText(Trim(s));
  }

  /** Free text: the state is the second comma part, less a trailing postal
      code; the postal code is the one split off, else the leftmost match
      in the whole trimmed text (SearchZip), else ''. */
  lemma TextStateAndZip(s: string)
    requires Trim(s) != ""
    ensures var parts := CommaParts(Trim(s));
      var r := ParseLocation(Text(s));
      var split := if |parts| >= 2 then SplitStateZip(parts[1]).1 else "";
      && (|parts| < 2 ==> r.state == "")
      && (|parts| >= 2 && split == "" ==> r.state == parts[1])
      && (|parts| >= 2 && split != "" ==> IsZip(r.zipCode) && Words(r.state) + [r.zipCode] == Words(parts[1]))
      && (split == "" ==> r.zipCode == SearchZip(Trim(s)))
  {
    var t := Trim(s);
    var parts := CommaParts(t);
    var r := ParseText(t);
    assert ParseLocation(Text(s)) == r;
    if |parts| >= 2 {
      var split := SplitStateZip(parts[1]);
      assert r.state == split.0;
      if split.1 != "" {
        assert r.zipCode == split.1;
        SplitStateZipKeepsWords(parts[1]);
      } else {
        assert r.zipCode == SearchZip(t);
      }
    }
  }

  /** When the state part gives up a postal code, the remaining state
      words followed by the code are the words of the original state part. */
  lemma SplitStateZipKeepsWords(state: string)
    requires SplitStateZip(state).1 != ""
    ensures Words(SplitStateZip(state).0) + [SplitStateZip(state).1] == Words(state)
  {
    var segments := Words(state);
    assert |segments| > 1 && IsZip(segments[|segments| - 1]);
    var kept := segments[..|segments| - 1];
    assert SplitStateZip(state) == (Join(kept, " "), segments[|segments| - 1]);
    forall i | 0 <= i < |kept|
      ensures IsWord(kept[i])
    {
      assert kept[i] == segments[i];
    }
    WordsOfJoin(kept);
    assert kept + [segments[|segments| - 1]] == segments;
  }
}
