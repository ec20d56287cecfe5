/** The fixed seed list has no duplicate name and no duplicate slug, so the
    UNIQUE constraints never drop one of its records from an empty table.
    Each entry of a key column is compared with the later entries in a
    lemma of its own, which keeps every proof obligation small; the lemmas
    at the end combine them. */
module FixtureKeys {
  import opened Speakers
  import opened Fixture

  lemma NameAfter0()
    ensures forall j :: 0 < j < |Names| ==> Names[0] != Names[j]
  {
  }

  lemma NameAfter1()
    ensures forall j :: 1 < j < |Names| ==> Names[1] != Names[j]
  {
  }

  lemma NameAfter2()
    ensures forall j :: 2 < j < |Names| ==> Names[2] != Names[j]
  {
  }

  lemma NameAfter3()
    ensures forall j :: 3 < j < |Names| ==> Names[3] != Names[j]
  {
  }

  lemma NameAfter4()
    ensures forall j :: 4 < j < |Names| ==> Names[4] != Names[j]
  {
  }

  lemma NameAfter5()
    ensures forall j :: 5 < j < |Names| ==> Names[5] != Names[j]
  {
  }

  lemma NameAfter6()
    ensures forall j :: 6 < j < |Names| ==> Names[6] != Names[j]
  {
  }

  lemma NameAfter7()
    ensures forall j :: 7 < j < |Names| ==> Names[7] != Names[j]
  {
  }

  lemma NameAfter8()
    ensures forall j :: 8 < j < |Names| ==> Names[8] != Names[j]
  {
  }

  lemma NameAfter9()
    ensures forall j :: 9 < j < |Names| ==> Names[9] != Names[j]
  {
  }

  lemma NameAfter10()
    ensures forall j :: 10 < j < |Names| ==> Names[10] != Names[j]
  {
  }

  lemma NameAfter11()
    ensures forall j :: 11 < j < |Names| ==> Names[11] != Names[j]
  {
  }

  lemma NameAfter12()
    ensures forall j :: 12 < j < |Names| ==> Names[12] != Names[j]
  {
  }

  lemma NameAfter13()
    ensures forall j :: 13 < j < |Names| ==> Names[13] != Names[j]
  {
  }

  lemma NameAfter14()
    ensures forall j :: 14 < j < |Names| ==> Names[14] != Names[j]
  {
  }

  lemma NameAfter15()
    ensures forall j :: 15 < j < |Names| ==> Names[15] != Names[j]
  {
  }

  lemma NameAfter16()
    ensures forall j :: 16 < j < |Names| ==> Names[16] != Names[j]
  {
  }

  lemma NameAfter17()
    ensures forall j :: 17 < j < |Names| ==> Names[17] != Names[j]
  {
  }

  lemma NameAfter18()
    ensures forall j :: 18 < j < |Names| ==> Names[18] != Names[j]
  {
  }

  lemma NameAfter19()
    ensures forall j :: 19 < j < |Names| ==> Names[19] != Names[j]
  {
  }

  lemma NameAfter20()
    ensures forall j :: 20 < j < |Names| ==> Names[20] != Names[j]
  {
  }

  lemma NameAfter21()
    ensures forall j :: 21 < j < |Names| ==> Names[21] != Names[j]
  {
  }

  lemma NameAfter22()
    ensures forall j :: 22 < j < |Names| ==> Names[22] != Names[j]
  {
  }

  lemma NameAfter23()
    ensures forall j :: 23 < j < |Names| ==> Names[23] != Names[j]
  {
  }

  lemma NameAfter24()
    ensures forall j :: 24 < j < |Names| ==> Names[24] != Names[j]
  {
  }

  lemma NameAfter25()
    ensures forall j :: 25 < j < |Names| ==> Names[25] != Names[j]
  {
  }

  lemma NameAfter26()
    ensures forall j :: 26 < j < |Names| ==> Names[26] != Names[j]
  {
  }

  lemma NameAfter27()
    ensures forall j :: 27 < j < |Names| ==> Names[27] != Names[j]
  {
  }

  lemma NameAfter28()
    ensures forall j :: 28 < j < |Names| ==> Names[28] != Names[j]
  {
  }

  lemma NameAfter29()
    ensures forall j :: 29 < j < |Names| ==> Names[29] != Names[j]
  {
  }

  lemma NameAfter30()
    ensures forall j :: 30 < j < |Names| ==> Names[30] != Names[j]
  {
  }

  lemma NameAfter31()
    ensures forall j :: 31 < j < |Names| ==> Names[31] != Names[j]
  {
  }

  lemma NameAfter32()
    ensures forall j :: 32 < j < |Names| ==> Names[32] != Names[j]
  {
  }

  lemma NameAfter33()
    ensures forall j :: 33 < j < |Names| ==> Names[33] != Names[j]
  {
  }

  lemma NameAfter34()
    ensures forall j :: 34 < j < |Names| ==> Names[34] != Names[j]
  {
  }

  lemma NameAfter35()
    ensures forall j :: 35 < j < |Names| ==> Names[35] != Names[j]
  {
  }

  lemma NameAfter36()
    ensures forall j :: 36 < j < |Names| ==> Names[36] != Names[j]
  {
  }

  lemma SlugAfter0()
    ensures forall j :: 0 < j < |Slugs| ==> Slugs[0] != Slugs[j]
  {
  }

  lemma SlugAfter1()
    ensures forall j :: 1 < j < |Slugs| ==> Slugs[1] != Slugs[j]
  {
  }

  lemma SlugAfter2()
    ensures forall j :: 2 < j < |Slugs| ==> Slugs[2] != Slugs[j]
  {
  }

  lemma SlugAfter3()
    ensures forall j :: 3 < j < |Slugs| ==> Slugs[3] != Slugs[j]
  {
  }

  lemma SlugAfter4()
    ensures forall j :: 4 < j < |Slugs| ==> Slugs[4] != Slugs[j]
  {
  }

  lemma SlugAfter5()
    ensures forall j :: 5 < j < |Slugs| ==> Slugs[5] != Slugs[j]
  {
  }

  lemma SlugAfter6()
    ensures forall j :: 6 < j < |Slugs| ==> Slugs[6] != Slugs[j]
  {
  }

  lemma SlugAfter7()
    ensures forall j :: 7 < j < |Slugs| ==> Slugs[7] != Slugs[j]
  {
  }

  lemma SlugAfter8()
    ensures forall j :: 8 < j < |Slugs| ==> Slugs[8] != Slugs[j]
  {
  }

  lemma SlugAfter9()
    ensures forall j :: 9 < j < |Slugs| ==> Slugs[9] != Slugs[j]
  {
  }

  lemma SlugAfter10()
    ensures forall j :: 10 < j < |Slugs| ==> Slugs[10] != Slugs[j]
  {
  }

  lemma SlugAfter11()
    ensures forall j :: 11 < j < |Slugs| ==> Slugs[11] != Slugs[j]
  {
  }

  lemma SlugAfter12()
    ensures forall j :: 12 < j < |Slugs| ==> Slugs[12] != Slugs[j]
  {
  }

  lemma SlugAfter13()
    ensures forall j :: 13 < j < |Slugs| ==> Slugs[13] != Slugs[j]
  {
  }

  lemma SlugAfter14()
    ensures forall j :: 14 < j < |Slugs| ==> Slugs[14] != Slugs[j]
  {
  }

  lemma SlugAfter15()
    ensures forall j :: 15 < j < |Slugs| ==> Slugs[15] != Slugs[j]
  {
  }

  lemma SlugAfter16()
    ensures forall j :: 16 < j < |Slugs| ==> Slugs[16] != Slugs[j]
  {
  }

  lemma SlugAfter17()
    ensures forall j :: 17 < j < |Slugs| ==> Slugs[17] != Slugs[j]
  {
  }

  lemma SlugAfter18()
    ensures forall j :: 18 < j < |Slugs| ==> Slugs[18] != Slugs[j]
  {
  }

  lemma SlugAfter19()
    ensures forall j :: 19 < j < |Slugs| ==> Slugs[19] != Slugs[j]
  {
  }

  lemma SlugAfter20()
    ensures forall j :: 20 < j < |Slugs| ==> Slugs[20] != Slugs[j]
  {
  }

  lemma SlugAfter21()
    ensures forall j :: 21 < j < |Slugs| ==> Slugs[21] != Slugs[j]
  {
  }

  lemma SlugAfter22()
    ensures forall j :: 22 < j < |Slugs| ==> Slugs[22] != Slugs[j]
  {
  }

  lemma SlugAfter23()
    ensures forall j :: 23 < j < |Slugs| ==> Slugs[23] != Slugs[j]
  {
  }

  lemma SlugAfter24()
    ensures forall j :: 24 < j < |Slugs| ==> Slugs[24] != Slugs[j]
  {
  }

  lemma SlugAfter25()
    ensures forall j :: 25 < j < |Slugs| ==> Slugs[25] != Slugs[j]
  {
  }

  lemma SlugAfter26()
    ensures forall j :: 26 < j < |Slugs| ==> Slugs[26] != Slugs[j]
  {
  }

  lemma SlugAfter27()
    ensures forall j :: 27 < j < |Slugs| ==> Slugs[27] != Slugs[j]
  {
  }

  lemma SlugAfter28()
    ensures forall j :: 28 < j < |Slugs| ==> Slugs[28] != Slugs[j]
  {
  }

  lemma SlugAfter29()
    ensures forall j :: 29 < j < |Slugs| ==> Slugs[29] != Slugs[j]
  {
  }

  lemma SlugAfter30()
    ensures forall j :: 30 < j < |Slugs| ==> Slugs[30] != Slugs[j]
  {
  }

  lemma SlugAfter31()
    ensures forall j :: 31 < j < |Slugs| ==> Slugs[31] != Slugs[j]
  {
  }

  lemma SlugAfter32()
    ensures forall j :: 32 < j < |Slugs| ==> Slugs[32] != Slugs[j]
  {
  }

  lemma SlugAfter33()
    ensures forall j :: 33 < j < |Slugs| ==> Slugs[33] != Slugs[j]
  {
  }

  lemma SlugAfter34()
    ensures forall j :: 34 < j < |Slugs| ==> Slugs[34] != Slugs[j]
  {
  }

  lemma SlugAfter35()
    ensures forall j :: 35 < j < |Slugs| ==> Slugs[35] != Slugs[j]
  {
  }

  lemma SlugAfter36()
    ensures forall j :: 36 < j < |Slugs| ==> Slugs[36] != Slugs[j]
  {
  }

  lemma NamesDistinct()
    ensures forall i, j :: 0 <= i < j < |Names| ==> Names[i] != Names[j]
  {
    forall i, j | 0 <= i < j < |Names| ensures Names[i] != Names[j] {
      if i == 0 { NameAfter0(); }
      else if i == 1 { NameAfter1(); }
      else if i == 2 { NameAfter2(); }
      else if i == 3 { NameAfter3(); }
      else if i == 4 { NameAfter4(); }
      else if i == 5 { NameAfter5(); }
      else if i == 6 { NameAfter6(); }
      else if i == 7 { NameAfter7(); }
      else if i == 8 { NameAfter8(); }
      else if i == 9 { NameAfter9(); }
      else if i == 10 { NameAfter10(); }
      else if i == 11 { NameAfter11(); }
      else if i == 12 { NameAfter12(); }
      else if i == 13 { NameAfter13(); }
      else if i == 14 { NameAfter14(); }
      else if i == 15 { NameAfter15(); }
      else if i == 16 { NameAfter16(); }
      else if i == 17 { NameAfter17(); }
      else if i == 18 { NameAfter18(); }
      else if i == 19 { NameAfter19(); }
      else if i == 20 { NameAfter20(); }
      else if i == 21 { NameAfter21(); }
      else if i == 22 { NameAfter22(); }
      else if i == 23 { NameAfter23(); }
      else if i == 24 { NameAfter24(); }
      else if i == 25 { NameAfter25(); }
      else if i == 26 { NameAfter26(); }
      else if i == 27 { NameAfter27(); }
      else if i == 28 { NameAfter28(); }
      else if i == 29 { NameAfter29(); }
      else if i == 30 { NameAfter30(); }
      else if i == 31 { NameAfter31(); }
      else if i == 32 { NameAfter32(); }
      else if i == 33 { NameAfter33(); }
      else if i == 34 { NameAfter34(); }
      else if i == 35 { NameAfter35(); }
      else if i == 36 { NameAfter36(); }
    }
  }

  lemma SlugsDistinct()
    ensures forall i, j :: 0 <= i < j < |Slugs| ==> Slugs[i] != Slugs[j]
  {
    forall i, j | 0 <= i < j < |Slugs| ensures Slugs[i] != Slugs[j] {
      if i == 0 { SlugAfter0(); }
      else if i == 1 { SlugAfter1(); }
      else if i == 2 { SlugAfter2(); }
      else if i == 3 { SlugAfter3(); }
      else if i == 4 { SlugAfter4(); }
      else if i == 5 { SlugAfter5(); }
      else if i == 6 { SlugAfter6(); }
      else if i == 7 { SlugAfter7(); }
      else if i == 8 { SlugAfter8(); }
      else if i == 9 { SlugAfter9(); }
      else if i == 10 { SlugAfter10(); }
      else if i == 11 { SlugAfter11(); }
      else if i == 12 { SlugAfter12(); }
      else if i == 13 { SlugAfter13(); }
      else if i == 14 { SlugAfter14(); }
      else if i == 15 { SlugAfter15(); }
      else if i == 16 { SlugAfter16(); }
      else if i == 17 { SlugAfter17(); }
      else if i == 18 { SlugAfter18(); }
      else if i == 19 { SlugAfter19(); }
      else if i == 20 { SlugAfter20(); }
      else if i == 21 { SlugAfter21(); }
      else if i == 22 { SlugAfter22(); }
      else if i == 23 { SlugAfter23(); }
      else if i == 24 { SlugAfter24(); }
      else if i == 25 { SlugAfter25(); }
      else if i == 26 { SlugAfter26(); }
      else if i == 27 { SlugAfter27(); }
      else if i == 28 { SlugAfter28(); }
      else if i == 29 { SlugAfter29(); }
      else if i == 30 { SlugAfter30(); }
      else if i == 31 { SlugAfter31(); }
      else if i == 32 { SlugAfter32(); }
      else if i == 33 { SlugAfter33(); }
      else if i == 34 { SlugAfter34(); }
      else if i == 35 { SlugAfter35(); }
      else if i == 36 { SlugAfter36(); }
    }
  }

  lemma RecordsDistinctKeys()
    ensures DistinctKeys(Records())
  {
    RecordsKeys();
    NamesDistinct();
    SlugsDistinct();
  }
}
