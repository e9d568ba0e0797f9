/**
 * Worked examples of the edit language: concrete edit strings, the pairs the
 * scanner finds in them, and their effect on the input parameters.
 *
 * Each example takes the edit string as a parameter pinned by its
 * precondition; the characters and slices of the literal are established by
 * separate lemmas.
 */
module EditExamples {
  import opened Common
  import opened EditLanguage

  /** The keys the examples use, through the case folding and the key table. */
  lemma ExampleKeys()
    ensures KeyFor("purs") == PuRs && KeyFor("puxs") == PuXs && KeyFor("purr") == PuRr
    ensures KeyFor("d") == H && KeyFor("maxslip") == Slip && KeyFor("h") == H
    ensures KeyFor("junk purs") == Invalid
  {
    assert Lower("purs") == "purs" && Lower("puxs") == "puxs" && Lower("purr") == "purr";
    assert Lower("d") == "d" && Lower("maxslip") == "maxslip" && Lower("h") == "h";
    assert |Lower("junk purs")| == 9;
  }

  // ---------------------------------------------------------------------------
  // "purs=0.01 puxs=0.1,purr=0.02": spaces and commas both separate pairs.
  // ---------------------------------------------------------------------------

  lemma ThreePairs(s: string)
    requires s == "purs=0.01 puxs=0.1,purr=0.02"
    ensures Assignments(s) == [Assignment("purs", "0.01"), Assignment("puxs", "0.1"), Assignment("purr", "0.02")]
  {
    ThreePairsFirst(s);
    ThreePairsSecond(s);
    ThreePairsLast(s);
  }

  /** The three keys select puRs, puXs and puRr, so exactly those three fields change. */
  lemma EditThreePairs(p: Params, s: string, parse: string -> Option<real>)
    requires s == "purs=0.01 puxs=0.1,purr=0.02"
    requires parse("0.01").Some? && parse("0.1").Some? && parse("0.02").Some?
    ensures Edited(p, s, parse) ==
      p.(puRs := parse("0.01").value, puXs := parse("0.1").value, puRr := parse("0.02").value)
  {
    ThreePairs(s);
    ExampleKeys();
    var a1, a2, a3 := Assignment("purs", "0.01"), Assignment("puxs", "0.1"), Assignment("purr", "0.02");
    var p1 := p.(puRs := parse("0.01").value);
    var p2 := p1.(puXs := parse("0.1").value);
    ApplyCons(p, a1, [a2, a3], parse);
    ApplyCons(p1, a2, [a3], parse);
    ApplyCons(p2, a3, [], parse);
  }

  lemma ThreePairsChars()
    ensures var s := "purs=0.01 puxs=0.1,purr=0.02";
      && |s| == 28
      && (forall k :: 0 <= k < 4 ==> s[k] != '=') && s[4] == '=' && (forall k :: 5 <= k < 9 ==> !IsSep(s[k])) && IsSep(s[9])
      && (forall k :: 10 <= k < 14 ==> s[k] != '=') && s[14] == '=' && (forall k :: 15 <= k < 18 ==> !IsSep(s[k])) && IsSep(s[18])
      && (forall k :: 19 <= k < 23 ==> s[k] != '=') && s[23] == '=' && (forall k :: 24 <= k < 28 ==> !IsSep(s[k]))
      && !IsSep(s[0]) && !IsSep(s[10]) && !IsSep(s[19])
  {
  }

  lemma ThreePairsSlices()
    ensures var s := "purs=0.01 puxs=0.1,purr=0.02";
      && s[0..4] == "purs" && s[5..9] == "0.01"
      && s[10..14] == "puxs" && s[15..18] == "0.1"
      && s[19..23] == "purr" && s[24..] == "0.02"
  {
    var s := "purs=0.01 puxs=0.1,purr=0.02";
    assert s[0..4] == "purs" by { SliceIs(s, 0, "purs"); }
    assert s[5..9] == "0.01" by { SliceIs(s, 5, "0.01"); }
    assert s[10..14] == "puxs" by { SliceIs(s, 10, "puxs"); }
    assert s[15..18] == "0.1" by { SliceIs(s, 15, "0.1"); }
    assert s[19..23] == "purr" by { SliceIs(s, 19, "purr"); }
    assert s[24..] == "0.02" by { SliceIs(s, 24, "0.02"); }
  }

  /** A slice equals a string when they agree character by character. */
  lemma SliceIs(s: string, i: nat, t: string)
    requires i + |t| <= |s|
    requires forall k :: 0 <= k < |t| ==> s[i + k] == t[k]
    ensures s[i..i + |t|] == t
    ensures i + |t| == |s| ==> s[i..] == t
  {
  }

  lemma ThreePairsFirst(s: string)
    requires s == "purs=0.01 puxs=0.1,purr=0.02"
    ensures Assignments(s) == [Assignment("purs", "0.01")] + AssignmentsFromName(s, 10)
  {
    ThreePairsChars();
    ThreePairsSlices();
    SkipSepsIs(s, 0, 0);
    PairAt(s, 0, 4, 5, 9);
    SkipSepsIs(s, 10, 10);
  }

  lemma ThreePairsSecond(s: string)
    requires s == "purs=0.01 puxs=0.1,purr=0.02"
    ensures AssignmentsFromName(s, 10) == [Assignment("puxs", "0.1")] + AssignmentsFromName(s, 19)
  {
    ThreePairsChars();
    ThreePairsSlices();
    PairAt(s, 10, 14, 15, 18);
    SkipSepsIs(s, 19, 19);
  }

  lemma ThreePairsLast(s: string)
    requires s == "purs=0.01 puxs=0.1,purr=0.02"
    ensures AssignmentsFromName(s, 19) == [Assignment("purr", "0.02")]
  {
    ThreePairsChars();
    ThreePairsSlices();
    LastPair(s, 19, 23, 24);
  }

  // ---------------------------------------------------------------------------
  // "junk purs=1": the name runs from the start of the segment, separators
  // included, so the key is "junk purs" and nothing is written.
  // ---------------------------------------------------------------------------

  lemma JunkBeforeName(p: Params, s: string, parse: string -> Option<real>)
    requires s == "junk purs=1"
    ensures Assignments(s) == [Assignment("junk purs", "1")]
    ensures Edited(p, s, parse) == p
  {
    JunkPairs(s);
    ExampleKeys();
    ApplyCons(p, Assignment("junk purs", "1"), [], parse);
    assert [Assignment("junk purs", "1")] + [] == [Assignment("junk purs", "1")];
  }

  lemma JunkPairs(s: string)
    requires s == "junk purs=1"
    ensures Assignments(s) == [Assignment("junk purs", "1")]
  {
    JunkChars();
    SkipSepsIs(s, 0, 0);
    LastPair(s, 0, 9, 10);
  }

  lemma JunkChars()
    ensures var s := "junk purs=1";
      && |s| == 11 && s[4] == ' ' && s[9] == '=' && s[10] == '1' && !IsSep(s[0])
      && (forall k :: 0 <= k < 9 ==> s[k] != '=')
      && s[0..9] == "junk purs" && s[10..] == "1"
  {
  }

  // ---------------------------------------------------------------------------
  // "purs= puxs=0.1": separators after '=' are skipped, so the empty value of
  // purs takes the next token, "puxs=0.1", as its value.
  // ---------------------------------------------------------------------------

  lemma EmptyValueSwallowsNext(p: Params, s: string, parse: string -> Option<real>)
    requires s == "purs= puxs=0.1"
    ensures Assignments(s) == [Assignment("purs", "puxs=0.1")]
    ensures Edited(p, s, parse) == EditParam(p, PuRs, "puxs=0.1", parse)
    ensures Edited(p, s, parse).puXs == p.puXs
  {
    SwallowPairs(s);
    ExampleKeys();
    ApplyCons(p, Assignment("purs", "puxs=0.1"), [], parse);
    assert [Assignment("purs", "puxs=0.1")] + [] == [Assignment("purs", "puxs=0.1")];
  }

  lemma SwallowPairs(s: string)
    requires s == "purs= puxs=0.1"
    ensures Assignments(s) == [Assignment("purs", "puxs=0.1")]
  {
    SwallowChars();
    SkipSepsIs(s, 0, 0);
    LastPair(s, 0, 4, 6);
  }

  lemma SwallowChars()
    ensures var s := "purs= puxs=0.1";
      && |s| == 14 && s[4] == '=' && s[5] == ' ' && !IsSep(s[0]) && !IsSep(s[6])
      && (forall k :: 0 <= k < 4 ==> s[k] != '=')
      && (forall k :: 6 < k < 13 ==> !IsSep(s[k]))
      && s[0..4] == "purs" && s[6..] == "puxs=0.1"
  {
    var s := "purs= puxs=0.1";
    assert |s[6..]| == 8 && s[6..][5] == '0' && s[6..][6] == '.' && s[6..][7] == '1';
  }

  // ---------------------------------------------------------------------------
  // "d=2\tmaxslip=0.2 slip": the key table sends "d" to H and "maxslip" to
  // Slip; a tab separates pairs like a space; the trailing bare name "slip"
  // is dropped.
  // ---------------------------------------------------------------------------

  lemma KeyTableQuirks(p: Params, s: string, parse: string -> Option<real>)
    requires s == "d=2\tmaxslip=0.2 slip"
    requires parse("2").Some? && parse("0.2").Some?
    ensures Assignments(s) == [Assignment("d", "2"), Assignment("maxslip", "0.2")]
    ensures Edited(p, s, parse) == p.(H := parse("2").value, slip := parse("0.2").value)
  {
    QuirksPairs(s);
    ExampleKeys();
    var a1, a2 := Assignment("d", "2"), Assignment("maxslip", "0.2");
    var p1 := p.(H := parse("2").value);
    ApplyCons(p, a1, [a2], parse);
    ApplyCons(p1, a2, [], parse);
  }

  lemma QuirksPairs(s: string)
    requires s == "d=2\tmaxslip=0.2 slip"
    ensures Assignments(s) == [Assignment("d", "2"), Assignment("maxslip", "0.2")]
  {
    QuirksFirst(s);
    QuirksRest(s);
  }

  lemma QuirksFirst(s: string)
    requires s == "d=2\tmaxslip=0.2 slip"
    ensures Assignments(s) == [Assignment("d", "2")] + AssignmentsFromName(s, 4)
  {
    QuirksChars();
    SkipSepsIs(s, 0, 0);
    PairAt(s, 0, 1, 2, 3);
    SkipSepsIs(s, 4, 4);
  }

  lemma QuirksRest(s: string)
    requires s == "d=2\tmaxslip=0.2 slip"
    ensures AssignmentsFromName(s, 4) == [Assignment("maxslip", "0.2")]
  {
    QuirksChars();
    PairAt(s, 4, 11, 12, 15);
    SkipSepsIs(s, 16, 16);
    NoPairWithoutEquals(s, 16);
  }

  lemma QuirksChars()
    ensures var s := "d=2\tmaxslip=0.2 slip";
      && |s| == 20
      && s[0] == 'd' && s[1] == '=' && s[2] == '2' && s[3] == '\t'
      && (forall k :: 4 <= k < 11 ==> s[k] != '=') && s[11] == '=' && (forall k :: 12 <= k < 15 ==> !IsSep(s[k])) && IsSep(s[15])
      && (forall k :: 16 <= k < 20 ==> s[k] != '=') && !IsSep(s[4]) && !IsSep(s[16])
      && s[0..1] == "d" && s[2..3] == "2" && s[4..11] == "maxslip" && s[12..15] == "0.2"
  {
    var s := "d=2\tmaxslip=0.2 slip";
    assert |s[12..15]| == 3 && s[12..15][0] == '0' && s[12..15][1] == '.' && s[12..15][2] == '2';
  }

  // ---------------------------------------------------------------------------
  // "h=1 purs=": a name whose '=' is followed by nothing but the end of the
  // string writes nothing. "h=1 ": a separator in last position stays in the
  // value.
  // ---------------------------------------------------------------------------

  lemma DanglingEquals(s: string)
    requires s == "h=1 purs="
    ensures Assignments(s) == [Assignment("h", "1")]
  {
    DanglingChars();
    SkipSepsIs(s, 0, 0);
    PairAt(s, 0, 1, 2, 3);
    SkipSepsIs(s, 4, 4);
    DanglingName(s, 4, 8);
  }

  lemma DanglingChars()
    ensures var s := "h=1 purs=";
      && |s| == 9 && s[0] == 'h' && s[1] == '=' && s[2] == '1' && s[3] == ' ' && s[8] == '=' && !IsSep(s[4])
      && (forall k :: 4 <= k < 8 ==> s[k] != '=')
      && s[0..1] == "h" && s[2..3] == "1"
  {
  }

  lemma TrailingSeparatorKept(s: string)
    requires s == "h=1 "
    ensures Assignments(s) == [Assignment("h", "1 ")]
  {
    TrailingChars();
    SkipSepsIs(s, 0, 0);
    LastPair(s, 0, 1, 2);
  }

  lemma TrailingChars()
    ensures var s := "h=1 ";
      && |s| == 4 && s[0] == 'h' && s[1] == '=' && s[2] == '1' && s[3] == ' '
      && s[0..1] == "h" && s[2..] == "1 "
  {
  }
}
