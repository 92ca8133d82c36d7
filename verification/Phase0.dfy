/** The identifiers of the two presets of Phase 0, and the texts they are written as. */
module Phase0 {
  import Uuid

  const Axolotl: Uuid.Id :=
    [0x16, 0xf6, 0xf4, 0x2a, 0x59, 0x7b, 0x4c, 0x37, 0x9b, 0x8e, 0x7f, 0x39, 0x08, 0xfb, 0xfa, 0x73]

  const Unsloth: Uuid.Id :=
    [0x25, 0x8e, 0x5d, 0x45, 0xc4, 0xe1, 0x40, 0xa4, 0x9f, 0x88, 0x8f, 0xbb, 0x0b, 0x7f, 0x7c, 0x75]

  /** The identifier the code parses prints as the text the migration inserts. */
  lemma AxolotlText()
    ensures Uuid.Print(Axolotl) == "16f6f42a-597b-4c37-9b8e-7f3908fbfa73"
  {
    AxolotlGroup0();
    AxolotlGroup1();
    AxolotlGroup2();
    AxolotlGroup3();
    AxolotlGroup4();
    AxolotlJoin1();
    AxolotlJoin2();
    AxolotlJoin3();
    AxolotlJoin4();
    hide Uuid.Hex, Uuid.Print;
    Printed(Axolotl, [0x16, 0xf6, 0xf4, 0x2a], [0x59, 0x7b], [0x4c, 0x37], [0x9b, 0x8e], [0x7f, 0x39, 0x08, 0xfb, 0xfa, 0x73]);
  }

  lemma AxolotlGroup0()
    ensures Uuid.Hex([0x16, 0xf6, 0xf4, 0x2a]) == "16f6f42a"
  {
  }

  lemma AxolotlGroup1()
    ensures Uuid.Hex([0x59, 0x7b]) == "597b"
  {
  }

  lemma AxolotlGroup2()
    ensures Uuid.Hex([0x4c, 0x37]) == "4c37"
  {
  }

  lemma AxolotlGroup3()
    ensures Uuid.Hex([0x9b, 0x8e]) == "9b8e"
  {
  }

  lemma AxolotlGroup4()
    ensures Uuid.Hex([0x7f, 0x39, 0x08, 0xfb, 0xfa, 0x73]) == "7f3908fbfa73"
  {
  }

  lemma AxolotlJoin1()
    ensures "16f6f42a" + "-" + "597b" == "16f6f42a-597b"
  {
  }

  lemma AxolotlJoin2()
    ensures "16f6f42a-597b" + "-" + "4c37" == "16f6f42a-597b-4c37"
  {
  }

  lemma AxolotlJoin3()
    ensures "16f6f42a-597b-4c37" + "-" + "9b8e" == "16f6f42a-597b-4c37-9b8e"
  {
  }

  lemma AxolotlJoin4()
    ensures "16f6f42a-597b-4c37-9b8e" + "-" + "7f3908fbfa73" == "16f6f42a-597b-4c37-9b8e-7f3908fbfa73"
  {
  }

  /** The identifier the code parses prints as the text the migration inserts. */
  lemma UnslothText()
    ensures Uuid.Print(Unsloth) == "258e5d45-c4e1-40a4-9f88-8fbb0b7f7c75"
  {
    UnslothGroup0();
    UnslothGroup1();
    UnslothGroup2();
    UnslothGroup3();
    UnslothGroup4();
    UnslothJoin1();
    UnslothJoin2();
    UnslothJoin3();
    UnslothJoin4();
    hide Uuid.Hex, Uuid.Print;
    Printed(Unsloth, [0x25, 0x8e, 0x5d, 0x45], [0xc4, 0xe1], [0x40, 0xa4], [0x9f, 0x88], [0x8f, 0xbb, 0x0b, 0x7f, 0x7c, 0x75]);
  }

  lemma UnslothGroup0()
    ensures Uuid.Hex([0x25, 0x8e, 0x5d, 0x45]) == "258e5d45"
  {
  }

  lemma UnslothGroup1()
    ensures Uuid.Hex([0xc4, 0xe1]) == "c4e1"
  {
  }

  lemma UnslothGroup2()
    ensures Uuid.Hex([0x40, 0xa4]) == "40a4"
  {
  }

  lemma UnslothGroup3()
    ensures Uuid.Hex([0x9f, 0x88]) == "9f88"
  {
  }

  lemma UnslothGroup4()
    ensures Uuid.Hex([0x8f, 0xbb, 0x0b, 0x7f, 0x7c, 0x75]) == "8fbb0b7f7c75"
  {
  }

  lemma UnslothJoin1()
    ensures "258e5d45" + "-" + "c4e1" == "258e5d45-c4e1"
  {
  }

  lemma UnslothJoin2()
    ensures "258e5d45-c4e1" + "-" + "40a4" == "258e5d45-c4e1-40a4"
  {
  }

  lemma UnslothJoin3()
    ensures "258e5d45-c4e1-40a4" + "-" + "9f88" == "258e5d45-c4e1-40a4-9f88"
  {
  }

  lemma UnslothJoin4()
    ensures "258e5d45-c4e1-40a4-9f88" + "-" + "8fbb0b7f7c75" == "258e5d45-c4e1-40a4-9f88-8fbb0b7f7c75"
  {
  }

  lemma Printed(id: Uuid.Id, a: seq<Uuid.Byte>, b: seq<Uuid.Byte>, c: seq<Uuid.Byte>, d: seq<Uuid.Byte>, e: seq<Uuid.Byte>)
    requires |a| == 4 && |b| == |c| == |d| == 2 && id == a + b + c + d + e
    ensures Uuid.Print(id) == Uuid.Hex(a) + "-" + Uuid.Hex(b) + "-" + Uuid.Hex(c) + "-" + Uuid.Hex(d) + "-" + Uuid.Hex(e)
  {
    assert id[0..4] == a && id[4..6] == b && id[6..8] == c && id[8..10] == d && id[10..16] == e;
  }
}
