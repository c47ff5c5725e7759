/** Worked examples of the dashboard's string handling, and how the default date flows into the
    export file name. */
module DashboardExamples {

  import opened Strings
  import opened DashboardView

  /** `"A, B,, C "` names the orders `A`, `B` and `C`. */
  lemma ParseSkipListExample()
    ensures ParseSkipList("A, B,, C ") == ["A", "B", "C"]
  {
    SplitExample();
    CleanExamplePieces();
  }

  lemma CleanExamplePieces()
    ensures CleanPieces(["A", " B", "", " C "]) == ["A", "B", "C"]
  {
    CleanPieceA();
    CleanPieceB();
    CleanPieceC();
    CleanPieceEmpty();
    CleanFourPiecesDropping("A", " B", "", " C ", "A", "B", "C");
  }

  /** Four pieces of which the third cleans to nothing leave three entries. */
  lemma CleanFourPiecesDropping(a: string, b: string, c: string, d: string, x: string, y: string, z: string)
    requires CleanPiece(a) == [x] && CleanPiece(b) == [y] && CleanPiece(c) == [] && CleanPiece(d) == [z]
    ensures CleanPieces([a, b, c, d]) == [x, y, z]
  {
    CleanFourPieces(a, b, c, d);
    assert [x] + ([y] + ([] + [z])) == [x, y, z];
  }

  lemma CleanPieceEmpty()
    ensures CleanPiece("") == []
  {
  }

  /** Cleaning a list is cleaning its first piece and then the rest. */
  lemma CleanPiecesHead(pieces: seq<string>)
    requires pieces != []
    ensures CleanPieces(pieces) == CleanPiece(pieces[0]) + CleanPieces(pieces[1..])
  {
  }

  lemma CleanTwoPieces(c: string, d: string)
    ensures CleanPieces([c, d]) == CleanPiece(c) + CleanPiece(d)
  {
    CleanPiecesHead([c, d]);
    assert [c, d][1..] == [d];
    CleanPiecesHead([d]);
    assert [d][1..] == [];
  }

  lemma CleanThreePieces(b: string, c: string, d: string)
    ensures CleanPieces([b, c, d]) == CleanPiece(b) + (CleanPiece(c) + CleanPiece(d))
  {
    CleanPiecesHead([b, c, d]);
    assert [b, c, d][1..] == [c, d];
    CleanTwoPieces(c, d);
  }

  lemma CleanFourPieces(a: string, b: string, c: string, d: string)
    ensures CleanPieces([a, b, c, d]) == CleanPiece(a) + (CleanPiece(b) + (CleanPiece(c) + CleanPiece(d)))
  {
    CleanPiecesHead([a, b, c, d]);
    assert [a, b, c, d][1..] == [b, c, d];
    CleanThreePieces(b, c, d);
  }

  lemma CleanPieceA()
    ensures CleanPiece("A") == ["A"]
  {
    TrimSurrounded("", "A", "");
    assert "" + "A" + "" == "A";
  }

  lemma CleanPieceB()
    ensures CleanPiece(" B") == ["B"]
  {
    TrimSurrounded(" ", "B", "");
    assert " " + "B" + "" == " B";
  }

  lemma CleanPieceC()
    ensures CleanPiece(" C ") == ["C"]
  {
    TrimSurrounded(" ", "C", " ");
    assert " " + "C" + " " == " C ";
  }

  lemma SplitExample()
    ensures Split("A, B,, C ", ',') == ["A", " B", "", " C "]
  {
    assert "A, B,, C " == "A" + [','] + (" B" + [','] + ("" + [','] + " C "));
    SplitFourPieces("A", " B", "", " C ", ',');
  }

  lemma SplitTwoPieces(c: string, d: string, sep: char)
    requires sep !in c && sep !in d
    ensures Split(c + [sep] + d, sep) == [c, d]
  {
    SplitNoSeparator(d, sep);
    SplitFirstPiece(c, d, sep);
  }

  lemma SplitThreePieces(b: string, c: string, d: string, sep: char)
    requires sep !in b && sep !in c && sep !in d
    ensures Split(b + [sep] + (c + [sep] + d), sep) == [b, c, d]
  {
    SplitTwoPieces(c, d, sep);
    SplitFirstPiece(b, c + [sep] + d, sep);
  }

  /** Three separators between four separator-free pieces split back into those pieces. */
  lemma SplitFourPieces(a: string, b: string, c: string, d: string, sep: char)
    requires sep !in a && sep !in b && sep !in c && sep !in d
    ensures Split(a + [sep] + (b + [sep] + (c + [sep] + d)), sep) == [a, b, c, d]
  {
    SplitThreePieces(b, c, d, sep);
    SplitFirstPiece(a, b + [sep] + (c + [sep] + d), sep);
  }

  lemma ExportFilenameExample()
    ensures ExportFilename("09/02/2026", "Lunch") == "Kitchen_List_09-02-2026_Lunch.xlsx"
  {
  }

  /** For the default date the file name carries the same day, month and year, dash-separated. */
  lemma ExportFilenameOfDefaultDate(day: nat, monthIndex: nat, year: int, meal: MealType)
    requires 1 <= day <= 31 && monthIndex <= 11
    ensures ExportFilename(FormatDate(day, monthIndex, year), meal.Name()) ==
            "Kitchen_List_" + TwoDigits(day) + "-" + TwoDigits(monthIndex + 1) + "-" +
            IntToString(year) + "_" + meal.Name() + ".xlsx"
  {
    TwoDigitsHaveNoSlash(day);
    TwoDigitsHaveNoSlash(monthIndex + 1);
    IntToStringHasNoSlash(year);
    DashedFilename(TwoDigits(day), TwoDigits(monthIndex + 1), IntToString(year), meal.Name());
  }

  /** A slash-separated date whose parts hold no slash becomes the dash-separated date. */
  lemma DashedFilename(dd: string, mm: string, yyyy: string, meal: string)
    requires '/' !in dd && '/' !in mm && '/' !in yyyy
    ensures ExportFilename(dd + "/" + mm + "/" + yyyy, meal) ==
            "Kitchen_List_" + dd + "-" + mm + "-" + yyyy + "_" + meal + ".xlsx"
  {
    ReplaceSlashes(dd, mm, yyyy);
    var dashed := dd + "-" + mm + "-" + yyyy;
    assert "Kitchen_List_" + dashed == "Kitchen_List_" + dd + "-" + mm + "-" + yyyy;
  }

  lemma IntToStringHasNoSlash(i: int)
    ensures '/' !in IntToString(i)
  {
    IntToStringCharacters(i);
    var s := IntToString(i);
    assert forall k :: 0 <= k < |s| ==> s[k] != '/';
  }

  lemma TwoDigitsHaveNoSlash(n: nat)
    requires n < 100
    ensures '/' !in TwoDigits(n)
  {
    TwoDigitsRoundTrip(n);
    DigitsHaveNoSlash(TwoDigits(n));
  }

  lemma DigitsHaveNoSlash(s: string)
    requires AllDigits(s)
    ensures '/' !in s
  {
    assert forall i :: 0 <= i < |s| ==> s[i] != '/';
  }

  lemma ReplaceSlashes(a: string, b: string, c: string)
    requires '/' !in a && '/' !in b && '/' !in c
    ensures ReplaceChar(a + "/" + b + "/" + c, '/', '-') == a + "-" + b + "-" + c
  {
    ReplaceCharRemoves(a, '/', '-');
    ReplaceCharRemoves(b, '/', '-');
    ReplaceCharRemoves(c, '/', '-');
    ReplaceCharConcat(a + "/" + b + "/", c, '/', '-');
    ReplaceCharConcat(a + "/" + b, "/", '/', '-');
    ReplaceCharConcat(a + "/", b, '/', '-');
    ReplaceCharConcat(a, "/", '/', '-');
  }
}
