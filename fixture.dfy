/** The fixed list of speakers that `POST /api/seed` inserts, in the
    handler's order. It is kept column by column: position `i` of every
    column belongs to the `i`-th record of the list, and `Records` puts the
    columns back together. The distinctness proofs then see only the two
    key columns. */
module Fixture {
  import opened Speakers

  /** The `name` of each record. */
  const Names: seq<string> := [
    "Gary Scott Gensler",
    "John L. Hennessy",
    "Fiona Ma",
    "Prof. Mike Snyder",
    "Chen Tianqiao",
    "Victor Wang",
    "Dr. John Hu",
    "Chrissy Luo",
    "Prof. Bao Zhenan",
    "Prof. Huijun Ring",
    "Guangyu Robert Yang",
    "Robin Lewis",
    "Adi Ignatius",
    "Dexter (Tiff) Roberts",
    "Henny Sender",
    "Zhang Lu",
    "Alice Ahmed",
    "Dr. Hongbin Li",
    "Sang Wen",
    "Zhou Hang",
    "Li Yifei",
    "Fu Sheng",
    "He Jing",
    "Dr. Ken Lin",
    "Jay Huang, PhD",
    "Jany Hejuan Zhao",
    "Jasmine Wong",
    "Echo Cheng",
    "Holly Zheng",
    "Lenjoy Lin",
    "William J. Wu, PhD, CFA",
    "Dr. Emmett Cunningham",
    "Hong Miao",
    "Arvin Sun",
    "Babar Ahmed",
    "John Zhong, CFA",
    "Wendy Zhou",
    "Mary Ellen Smith"
  ]

  /** The `title` of each record. */
  const Titles: seq<string> := [
    "Former Chair, U.S. Securities and Exchange Commission (SEC); Professor of the Practice",
    "10th President of Stanford University; Chairman",
    "34th Treasurer of California",
    "Professor and Chair",
    "Founder",
    "Founding Partner",
    "Director, Advanced Technology Group; Founding Partner",
    "Co\U{2011}founder",
    "Professor",
    "Adjunct Professor; Serial Entrepreneur",
    "Co\U{2011}founder & CEO; Former Professor; Head",
    "Summit Chair, NEX\U{2011}T 2025; Chair; Senior Advisor; Former Associate Dean",
    "Editor\U{2011}in\U{2011}Chief",
    "Fellow",
    "Senior Advisor; Former Chief Correspondent",
    "Founding Partner",
    "AdTech, Creative & Growth Leader; Investor & Board Member; Ex\U{2011}VP Product",
    "James Liang Endowed Chair; Faculty Co\U{2011}Director; Senior Fellow",
    "Co\U{2011}founder & COO",
    "Angel Investor; Partner; Founder",
    "Chairperson; Board Member",
    "Founder & CEO",
    "Managing Partner",
    "Senior Vice President (SVP)",
    "Founding Partner",
    "Founder & CEO; Chairperson; Publisher",
    "Co\U{2011}Chair",
    "Founding Partner",
    "Founding & Managing Partner; Chairwoman; Adjunct Professor",
    "Co\U{2011}Founder",
    "CEO & Co\U{2011}Founder",
    "Former Senior Managing Director; Senior Advisor; Adjunct Professor",
    "Founding Partner",
    "Founder & CEO",
    "CEO",
    "Alternative Investments Director",
    "CEO",
    "Former Corporate Vice President; Independent Director"
  ]

  /** The `organization` of each record. */
  const Organizations: seq<string> := [
    "MIT Sloan",
    "Alphabet",
    "",
    "Stanford Genome Center",
    "Shanda Group",
    "CEG Ventures",
    "Nvidia (Advanced Technology Group); GeneratiVision Ventures",
    "Shanda Group; Tianqiao & Chrissy Chen Institute for Brain Science",
    "Stanford University",
    "Stanford University School of Medicine",
    "Altera; Former Professor at MIT (Brain & Cognitive Sciences; EECS); Head of the MetaConscious Research Group",
    "Worldview Global Impact (WGI); NextFin.AI; Columbia University's School of International and Public Affairs (SIPA)",
    "Harvard Business Review",
    "Atlantic Council",
    "BlackRock; Financial Times",
    "Fusion Fund",
    "AppLovin",
    "Stanford University; Stanford Center on China's Economy and Institutions (SCCEI); Freeman Spogli Institute (FSI); Stanford Institute for Economic Policy Research (SIEPR)",
    "Genspark.ai",
    "Shunwei Capital; YidaoYongche",
    "Li Qibin Foundation; Rockefeller Foundation",
    "Cheetah Mobile",
    "Gen Law Firm",
    "CP Group (Thailand)",
    "Jadestone Capital",
    "NextFin.AI; TMTPOST Group; Barron's China",
    "Worldview Global Impact",
    "BrightWay Future Capital",
    "EnvisionX Capital; BlueFocus International; USC",
    "Genspark.ai",
    "Menos AI",
    "Blackstone Life Sciences (former); HealthQuest Capital (current Senior Advisor); Stanford University School of Medicine",
    "Future Capital",
    "Traini",
    "Mindstorm Studios",
    "Morgan Stanley",
    "Adas Eco",
    "Microsoft; current independent director positions on multiple public company boards"
  ]

  /** The `background` of each record (empty where the list has none). */
  const Backgrounds: seq<string> := [
    "Former SEC Chair",
    "Turing Award Laureate",
    "",
    "Internationally recognized pioneer in precision health, genomics, and wearable technologies",
    "",
    "",
    "",
    "",
    "Founder & Director, Stanford Wearable Electronics initiative; UNESCO Women in Science Award winner; Member, U.S. National Academy of Engineering (NAE)",
    "Global leader in AI longevity medicine and East\U{2013}West integrative health",
    "",
    "",
    "",
    "",
    "",
    "",
    "",
    "",
    "",
    "",
    "",
    "",
    "",
    "",
    "",
    "",
    "",
    "",
    "",
    "",
    "",
    "20+ years of venture investment and drug development leadership experience",
    "",
    "",
    "",
    "",
    "",
    "Expertise in AI strategy, digital transformation, and corporate governance"
  ]

  /** The `is_closed_door` flag of each record. */
  const ClosedDoor: seq<bool> := [
    false, false, false, false, true, true, true, false,
    false, false, false, false, false, false, false, false,
    false, false, false, false, false, false, false, false,
    false, false, false, false, false, false, false, false,
    false, false, false, false, false, false
  ]

  /** The `slug` of each record. */
  const Slugs: seq<string> := [
    "gary-scott-gensler",
    "john-l-hennessy",
    "fiona-ma",
    "prof-mike-snyder",
    "chen-tianqiao",
    "victor-wang",
    "dr-john-hu",
    "chrissy-luo",
    "prof-bao-zhenan",
    "prof-huijun-ring",
    "guangyu-robert-yang",
    "robin-lewis",
    "adi-ignatius",
    "dexter-tiff-roberts",
    "henny-sender",
    "zhang-lu",
    "alice-ahmed",
    "dr-hongbin-li",
    "sang-wen",
    "zhou-hang",
    "li-yifei",
    "fu-sheng",
    "he-jing",
    "dr-ken-lin",
    "jay-huang-phd",
    "jany-hejuan-zhao",
    "jasmine-wong",
    "echo-cheng",
    "holly-zheng",
    "lenjoy-lin",
    "william-j-wu-phd-cfa",
    "dr-emmett-cunningham",
    "hong-miao",
    "arvin-sun",
    "babar-ahmed",
    "john-zhong-cfa",
    "wendy-zhou",
    "mary-ellen-smith"
  ]

  /** The number of records in the list. */
  const Count := 38

  /** The `i`-th record of the list. */
  function RecordAt(i: nat): Entry
    requires i < Count
  {
    Entry(Names[i], Titles[i], Organizations[i], Backgrounds[i], ClosedDoor[i], Slugs[i])
  }

  /** The records, in the order of the list. */
  function Records(): seq<Entry>
  {
    seq(Count, i requires 0 <= i < Count => RecordAt(i))
  }

  lemma RecordsLength()
    ensures |Records()| == 38
  {
  }

  /** Every column has one entry per record, and the records' keys are
      the key columns. */
  lemma RecordsKeys()
    ensures |Names| == |Slugs| == |Records()|
    ensures forall i :: 0 <= i < |Records()| ==> Records()[i].name == Names[i] && Records()[i].slug == Slugs[i]
  {
    forall i | 0 <= i < |Records()| ensures Records()[i].name == Names[i] && Records()[i].slug == Slugs[i] {
      assert Records()[i] == RecordAt(i);
    }
  }

  /** The first record is Gary Scott Gensler's, from MIT Sloan. */
  lemma FirstRecord()
    ensures Records()[0].slug == "gary-scott-gensler"
    ensures Records()[0].organization == "MIT Sloan"
  {
    assert Records()[0] == RecordAt(0);
  }

  /** Exactly the fifth, sixth and seventh flags are set. */
  lemma ClosedDoorColumn()
    ensures |ClosedDoor| == Count
    ensures forall i :: 0 <= i < |ClosedDoor| ==> (ClosedDoor[i] <==> 4 <= i <= 6)
  {
    assert ClosedDoor == [false, false, false, false, true, true, true] + seq(31, _ => false);
  }

  /** Exactly the fifth, sixth and seventh records (Chen Tianqiao, Victor Wang,
      Dr. John Hu) are closed-door. */
  lemma ClosedDoorRecords()
    ensures forall i :: 0 <= i < |Records()| ==> (Records()[i].isClosedDoor <==> 4 <= i <= 6)
  {
    ClosedDoorColumn();
    forall i | 0 <= i < |Records()| ensures Records()[i].isClosedDoor == ClosedDoor[i] {
      assert Records()[i] == RecordAt(i);
    }
  }
}
