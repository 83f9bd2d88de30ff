/** The example of FIPS 180-4 for a one-block message, "abc", worked out word by word and round by round: it ties the
    definition of SHA-1 to the published digest. */
module Sha1Example {
  import opened Base
  import opened CspId
  import opened Sha1

  /** Sixteen words of a message schedule. */
  datatype Window = Window(a: bv32, b: bv32, c: bv32, d: bv32, e: bv32, f: bv32, g: bv32, h: bv32,
                           i: bv32, j: bv32, k: bv32, l: bv32, m: bv32, n: bv32, o: bv32, p: bv32)

  /** The words of a schedule from number `t` on. */
  function From(block: seq<bv8>, t: nat): Window
    requires |block| == BLOCK
  {
    Window(Schedule(block, t), Schedule(block, t + 1), Schedule(block, t + 2), Schedule(block, t + 3),
           Schedule(block, t + 4), Schedule(block, t + 5), Schedule(block, t + 6), Schedule(block, t + 7),
           Schedule(block, t + 8), Schedule(block, t + 9), Schedule(block, t + 10), Schedule(block, t + 11),
           Schedule(block, t + 12), Schedule(block, t + 13), Schedule(block, t + 14), Schedule(block, t + 15))
  }

  /** The words one further on, and four further on. */
  function Slide(w: Window): Window {
    Window(w.b, w.c, w.d, w.e, w.f, w.g, w.h, w.i, w.j, w.k, w.l, w.m, w.n, w.o, w.p, Expand(w.n, w.i, w.c, w.a))
  }

  lemma NextWord(block: seq<bv8>, t: nat)
    requires |block| == BLOCK
    ensures From(block, t + 1) == Slide(From(block, t))
  {
    hide Expand;
    assert Schedule(block, t + 16)
        == Expand(Schedule(block, t + 13), Schedule(block, t + 8), Schedule(block, t + 2), Schedule(block, t));
    hide Schedule;
  }

  /** The words next in turn and the working variables. */
  datatype Run = Run(w: Window, s: Hash)

  function Step(r: Run, t: nat): Run { Run(Slide(r.w), Round(r.s, t, r.w.a)) }

  function Four(r: Run, t: nat): Run { Step(Step(Step(Step(r, t), t + 1), t + 2), t + 3) }

  /** The computation on a block. */
  function On(block: seq<bv8>, t: nat): Run
    requires |block| == BLOCK
  {
    Run(From(block, t), Rounds(H0, block, t))
  }

  lemma OneStep(block: seq<bv8>, t: nat)
    requires |block| == BLOCK
    ensures On(block, t + 1) == Step(On(block, t), t)
  {
    hide Slide, Round;
    NextWord(block, t);
    assert Rounds(H0, block, t + 1) == Round(Rounds(H0, block, t), t, Schedule(block, t));
    hide Schedule;
  }

  lemma FourSteps(block: seq<bv8>, t: nat)
    requires |block| == BLOCK
    ensures On(block, t + 4) == Four(On(block, t), t)
  {
    hide Step, On;
    OneStep(block, t);
    OneStep(block, t + 1);
    OneStep(block, t + 2);
    OneStep(block, t + 3);
  }

  /** Four steps from one known state to another. */
  lemma Go(block: seq<bv8>, t: nat, r: Run, v: Run)
    requires |block| == BLOCK && On(block, t) == r && Four(r, t) == v
    ensures On(block, t + 4) == v
  {
    hide On, Four;
    FourSteps(block, t);
  }

  lemma Part0(block: seq<bv8>)
    requires |block| == BLOCK
    requires On(block, 8) ==
             Run(Window(0x00000000, 0x00000000, 0x00000000, 0x00000000, 0x00000000, 0x00000000, 0x00000000, 0x00000018,
                        0xC2C4C700, 0x00000000, 0x00000030, 0x85898E01, 0x00000000, 0x00000060, 0x0B131C03, 0x00000030),
                 Hash(0x9E8C07D4, 0x993E30C1, 0x0FF1F290, 0xB3F52677, 0xF3763846))
    ensures On(block, 16) ==
            Run(Window(0xC2C4C700, 0x00000000, 0x00000030, 0x85898E01, 0x00000000, 0x00000060, 0x0B131C03, 0x00000030,
                       0x85898EC1, 0x16263806, 0x00000000, 0x00000180, 0x2C4C700C, 0x000000F0, 0x93AFB507, 0x5898E048),
                Hash(0x20BDD62F, 0x196BEE77, 0x644A3DA5, 0x1181ED99, 0x18C623F9))
  {
    hide On;
    Go(block, 8, On(block, 8),
       Run(Window(0x00000000, 0x00000000, 0x00000000, 0x00000018, 0xC2C4C700, 0x00000000, 0x00000030, 0x85898E01,
                  0x00000000, 0x00000060, 0x0B131C03, 0x00000030, 0x85898EC1, 0x16263806, 0x00000000, 0x00000180),
           Hash(0x63188FE4, 0xFBDA9E89, 0x60D47E4A, 0x12DAB8CA, 0x27A301F5)));
    Go(block, 12, On(block, 12),
       Run(Window(0xC2C4C700, 0x00000000, 0x00000030, 0x85898E01, 0x00000000, 0x00000060, 0x0B131C03, 0x00000030,
                  0x85898EC1, 0x16263806, 0x00000000, 0x00000180, 0x2C4C700C, 0x000000F0, 0x93AFB507, 0x5898E048),
           Hash(0x20BDD62F, 0x196BEE77, 0x644A3DA5, 0x1181ED99, 0x18C623F9)));
  }

  lemma Part1(block: seq<bv8>)
    requires |block| == BLOCK
    requires On(block, 16) ==
             Run(Window(0xC2C4C700, 0x00000000, 0x00000030, 0x85898E01, 0x00000000, 0x00000060, 0x0B131C03, 0x00000030,
                        0x85898EC1, 0x16263806, 0x00000000, 0x00000180, 0x2C4C700C, 0x000000F0, 0x93AFB507, 0x5898E048),
                 Hash(0x20BDD62F, 0x196BEE77, 0x644A3DA5, 0x1181ED99, 0x18C623F9))
    ensures On(block, 32) ==
            Run(Window(0x8E9A9202, 0x00000600, 0xB131C0F0, 0x16263BC6, 0x4EBED41E, 0x626380A1, 0x16263806, 0x000018C0,
                       0xD2E138C4, 0x00000F00, 0x3AFB5079, 0x898E04E5, 0xE2BA3C2B, 0x000060C0, 0x053A37CD, 0x74458547),
                Hash(0x3B845D33, 0x1267B407, 0x717EEBD7, 0xA0DC2D4B, 0xD2AA1365))
  {
    hide On;
    Go(block, 16, On(block, 16),
       Run(Window(0x00000000, 0x00000060, 0x0B131C03, 0x00000030, 0x85898EC1, 0x16263806, 0x00000000, 0x00000180,
                  0x2C4C700C, 0x000000F0, 0x93AFB507, 0x5898E048, 0x8E9A9202, 0x00000600, 0xB131C0F0, 0x16263BC6),
           Hash(0xFD9E1D7D, 0xDC64901D, 0x20AA99CA, 0xD3A49608, 0xC82F758B)));
    Go(block, 20, On(block, 20),
       Run(Window(0x85898EC1, 0x16263806, 0x00000000, 0x00000180, 0x2C4C700C, 0x000000F0, 0x93AFB507, 0x5898E048,
                  0x8E9A9202, 0x00000600, 0xB131C0F0, 0x16263BC6, 0x4EBED41E, 0x626380A1, 0x16263806, 0x000018C0),
           Hash(0xD541F12D, 0x21283486, 0x0CE88EFF, 0x868DEC32, 0x7F67875F)));
    Go(block, 24, On(block, 24),
       Run(Window(0x2C4C700C, 0x000000F0, 0x93AFB507, 0x5898E048, 0x8E9A9202, 0x00000600, 0xB131C0F0, 0x16263BC6,
                  0x4EBED41E, 0x626380A1, 0x16263806, 0x000018C0, 0xD2E138C4, 0x00000F00, 0x3AFB5079, 0x898E04E5),
           Hash(0x4AA84D97, 0xBE35FBD5, 0x12104EE9, 0xB1D59F71, 0x75507C4B)));
    Go(block, 28, On(block, 28),
       Run(Window(0x8E9A9202, 0x00000600, 0xB131C0F0, 0x16263BC6, 0x4EBED41E, 0x626380A1, 0x16263806, 0x000018C0,
                  0xD2E138C4, 0x00000F00, 0x3AFB5079, 0x898E04E5, 0xE2BA3C2B, 0x000060C0, 0x053A37CD, 0x74458547),
           Hash(0x3B845D33, 0x1267B407, 0x717EEBD7, 0xA0DC2D4B, 0xD2AA1365)));
  }

  lemma Part2(block: seq<bv8>)
    requires |block| == BLOCK
    requires On(block, 32) ==
             Run(Window(0x8E9A9202, 0x00000600, 0xB131C0F0, 0x16263BC6, 0x4EBED41E, 0x626380A1, 0x16263806, 0x000018C0,
                        0xD2E138C4, 0x00000F00, 0x3AFB5079, 0x898E04E5, 0xE2BA3C2B, 0x000060C0, 0x053A37CD, 0x74458547),
                 Hash(0x3B845D33, 0x1267B407, 0x717EEBD7, 0xA0DC2D4B, 0xD2AA1365))
    ensures On(block, 48) ==
            Run(Window(0xDA9415ED, 0x26380A16, 0x626383A1, 0x4EBF54DE, 0x3835B44B, 0x0000F600, 0x1E84C7A3, 0x98E04D98,
                       0x651D16A0, 0x62658CA1, 0x458544D6, 0x44584CB7, 0x7BA06619, 0x6380AEA2, 0x0AE55269, 0x627B49A1),
                Hash(0xBEAD02CA, 0xA01B846C, 0x8714787C, 0x503CA382, 0xFB86C6AB))
  {
    hide On;
    Go(block, 32, On(block, 32),
       Run(Window(0x4EBED41E, 0x626380A1, 0x16263806, 0x000018C0, 0xD2E138C4, 0x00000F00, 0x3AFB5079, 0x898E04E5,
                  0xE2BA3C2B, 0x000060C0, 0x053A37CD, 0x74458547, 0xDA9415ED, 0x26380A16, 0x626383A1, 0x4EBF54DE),
           Hash(0xDCBBB0CB, 0x21796AD4, 0x4B03AF04, 0x811BEA82, 0xCEE1174C)));
    Go(block, 36, On(block, 36),
       Run(Window(0xD2E138C4, 0x00000F00, 0x3AFB5079, 0x898E04E5, 0xE2BA3C2B, 0x000060C0, 0x053A37CD, 0x74458547,
                  0xDA9415ED, 0x26380A16, 0x626383A1, 0x4EBF54DE, 0x3835B44B, 0x0000F600, 0x1E84C7A3, 0x98E04D98),
           Hash(0x32DE1CBA, 0x4C986405, 0xF718E5CF, 0x03D447F6, 0xF72EEC32)));
    Go(block, 40, On(block, 40),
       Run(Window(0xE2BA3C2B, 0x000060C0, 0x053A37CD, 0x74458547, 0xDA9415ED, 0x26380A16, 0x626383A1, 0x4EBF54DE,
                  0x3835B44B, 0x0000F600, 0x1E84C7A3, 0x98E04D98, 0x651D16A0, 0x62658CA1, 0x458544D6, 0x44584CB7),
           Hash(0xEE1B1AAF, 0x7F193DC5, 0x25C28357, 0xFF21F7B7, 0x8CB7872E)));
    Go(block, 44, On(block, 44),
       Run(Window(0xDA9415ED, 0x26380A16, 0x626383A1, 0x4EBF54DE, 0x3835B44B, 0x0000F600, 0x1E84C7A3, 0x98E04D98,
                  0x651D16A0, 0x62658CA1, 0x458544D6, 0x44584CB7, 0x7BA06619, 0x6380AEA2, 0x0AE55269, 0x627B49A1),
           Hash(0xBEAD02CA, 0xA01B846C, 0x8714787C, 0x503CA382, 0xFB86C6AB)));
  }

  lemma Part3(block: seq<bv8>)
    requires |block| == BLOCK
    requires On(block, 48) ==
             Run(Window(0xDA9415ED, 0x26380A16, 0x626383A1, 0x4EBF54DE, 0x3835B44B, 0x0000F600, 0x1E84C7A3, 0x98E04D98,
                        0x651D16A0, 0x62658CA1, 0x458544D6, 0x44584CB7, 0x7BA06619, 0x6380AEA2, 0x0AE55269, 0x627B49A1),
                 Hash(0xBEAD02CA, 0xA01B846C, 0x8714787C, 0x503CA382, 0xFB86C6AB))
    ensures On(block, 64) ==
            Run(Window(0x7CD45C9D, 0x000F0000, 0xFB50753A, 0xEC6765E8, 0xBA3C2BE2, 0x0060C000, 0x3A37CD05, 0x458546F4,
                       0xB8599DD6, 0x380A1A26, 0x01E02203, 0xE7CC3456, 0xE6E60B69, 0x00F60A00, 0x5795EF4F, 0x822E0879),
                Hash(0x6B61C9E1, 0xB66C020B, 0x9523272C, 0xF5D5B051, 0x8FD4B796))
  {
    hide On;
    Go(block, 48, On(block, 48),
       Run(Window(0x3835B44B, 0x0000F600, 0x1E84C7A3, 0x98E04D98, 0x651D16A0, 0x62658CA1, 0x458544D6, 0x44584CB7,
                  0x7BA06619, 0x6380AEA2, 0x0AE55269, 0x627B49A1, 0x7CD45C9D, 0x000F0000, 0xFB50753A, 0xEC6765E8),
           Hash(0x3847AD66, 0x641DB2CE, 0x4481CC71, 0xEEBCE4CD, 0xAFAB40B2)));
    Go(block, 52, On(block, 52),
       Run(Window(0x651D16A0, 0x62658CA1, 0x458544D6, 0x44584CB7, 0x7BA06619, 0x6380AEA2, 0x0AE55269, 0x627B49A1,
                  0x7CD45C9D, 0x000F0000, 0xFB50753A, 0xEC6765E8, 0xBA3C2BE2, 0x0060C000, 0x3A37CD05, 0x458546F4),
           Hash(0x5E6456AF, 0x7B71F76D, 0x09FA7C76, 0x792410DB, 0x8E11EB59)));
    Go(block, 56, On(block, 56),
       Run(Window(0x7BA06619, 0x6380AEA2, 0x0AE55269, 0x627B49A1, 0x7CD45C9D, 0x000F0000, 0xFB50753A, 0xEC6765E8,
                  0xBA3C2BE2, 0x0060C000, 0x3A37CD05, 0x458546F4, 0xB8599DD6, 0x380A1A26, 0x01E02203, 0xE7CC3456),
           Hash(0x3F52DE5A, 0x09D785FD, 0x3498BFD4, 0xF211824F, 0xD79915AB)));
    Go(block, 60, On(block, 60),
       Run(Window(0x7CD45C9D, 0x000F0000, 0xFB50753A, 0xEC6765E8, 0xBA3C2BE2, 0x0060C000, 0x3A37CD05, 0x458546F4,
                  0xB8599DD6, 0x380A1A26, 0x01E02203, 0xE7CC3456, 0xE6E60B69, 0x00F60A00, 0x5795EF4F, 0x822E0879),
           Hash(0x6B61C9E1, 0xB66C020B, 0x9523272C, 0xF5D5B051, 0x8FD4B796)));
  }

  lemma Part4(block: seq<bv8>)
    requires |block| == BLOCK
    requires On(block, 64) ==
             Run(Window(0x7CD45C9D, 0x000F0000, 0xFB50753A, 0xEC6765E8, 0xBA3C2BE2, 0x0060C000, 0x3A37CD05, 0x458546F4,
                        0xB8599DD6, 0x380A1A26, 0x01E02203, 0xE7CC3456, 0xE6E60B69, 0x00F60A00, 0x5795EF4F, 0x822E0879),
                 Hash(0x6B61C9E1, 0xB66C020B, 0x9523272C, 0xF5D5B051, 0x8FD4B796))
    ensures On(block, 80) ==
            Run(Window(0x7E577CE2, 0x07EF2103, 0x8544E945, 0xEB39DAB8, 0xC205991A, 0x80AECB63, 0x7D84CA48, 0x7B499B62,
                       0x8E8010A8, 0x4B5B8A77, 0x3216B69A, 0x0507E88D, 0x705BEE96, 0x60C0FF00, 0xA28362D0, 0x1DA6B91D),
                Hash(0x42541B35, 0x5738D5E1, 0x21834873, 0x681E6DF6, 0xD8FDF6AD))
  {
    hide On;
    Go(block, 64, On(block, 64),
       Run(Window(0xBA3C2BE2, 0x0060C000, 0x3A37CD05, 0x458546F4, 0xB8599DD6, 0x380A1A26, 0x01E02203, 0xE7CC3456,
                  0xE6E60B69, 0x00F60A00, 0x5795EF4F, 0x822E0879, 0x7E577CE2, 0x07EF2103, 0x8544E945, 0xEB39DAB8),
           Hash(0x78DD4D2B, 0x0C3DF2B4, 0x4405957E, 0x0677E9EB, 0x5AD87278)));
    Go(block, 68, On(block, 68),
       Run(Window(0xB8599DD6, 0x380A1A26, 0x01E02203, 0xE7CC3456, 0xE6E60B69, 0x00F60A00, 0x5795EF4F, 0x822E0879,
                  0x7E577CE2, 0x07EF2103, 0x8544E945, 0xEB39DAB8, 0xC205991A, 0x80AECB63, 0x7D84CA48, 0x7B499B62),
           Hash(0x39859DE7, 0xC199F8C7, 0x8FC96230, 0x125C24F0, 0xDE37534A)));
    Go(block, 72, On(block, 72),
       Run(Window(0xE6E60B69, 0x00F60A00, 0x5795EF4F, 0x822E0879, 0x7E577CE2, 0x07EF2103, 0x8544E945, 0xEB39DAB8,
                  0xC205991A, 0x80AECB63, 0x7D84CA48, 0x7B499B62, 0x8E8010A8, 0x4B5B8A77, 0x3216B69A, 0x0507E88D),
           Hash(0x63F7DAB7, 0x5EE76897, 0xC45E4FDB, 0x3B6D0B79, 0xCE616779)));
    Go(block, 76, On(block, 76),
       Run(Window(0x7E577CE2, 0x07EF2103, 0x8544E945, 0xEB39DAB8, 0xC205991A, 0x80AECB63, 0x7D84CA48, 0x7B499B62,
                  0x8E8010A8, 0x4B5B8A77, 0x3216B69A, 0x0507E88D, 0x705BEE96, 0x60C0FF00, 0xA28362D0, 0x1DA6B91D),
           Hash(0x42541B35, 0x5738D5E1, 0x21834873, 0x681E6DF6, 0xD8FDF6AD)));
  }

  /** The three bytes, padded to a block. */
  function Abc(): seq<bv8> { [0x61, 0x62, 0x63] }

  lemma {:induction false} GivenWords(block: seq<bv8>)
    requires block == Abc() + [0x80] + Zeros(52) + [0, 0, 0, 0, 0, 0, 0, 24]
    ensures |block| == BLOCK && Schedule(block, 0) == 0x61626380 && Schedule(block, 15) == 0x18
    ensures forall t: nat :: 1 <= t < 15 ==> Schedule(block, t) == 0
  {
    assert block[0..4] == [0x61, 0x62, 0x63, 0x80] && block[60..64] == [0, 0, 0, 24];
    forall t: nat | 1 <= t < 15 ensures Schedule(block, t) == 0 {
      assert block[4 * t..4 * t + 4] == [0, 0, 0, 0];
    }
  }

  lemma Expansions()
    ensures Expand(0, 0, 0, 0x61626380) == 0xC2C4C700 && Expand(0, 0, 0, 0) == 0 && Expand(0x18, 0, 0, 0) == 0x30
    ensures Expand(0xC2C4C700, 0, 0, 0) == 0x85898E01 && Expand(0x30, 0, 0, 0) == 0x60
    ensures Expand(0x85898E01, 0, 0, 0) == 0x0B131C03 && Expand(0, 0x18, 0, 0) == 0x30
  {
  }

  lemma FirstWords(block: seq<bv8>)
    requires block == Abc() + [0x80] + Zeros(52) + [0, 0, 0, 0, 0, 0, 0, 24]
    ensures |block| == BLOCK
    ensures From(block, 8) ==
            Window(0x00000000, 0x00000000, 0x00000000, 0x00000000, 0x00000000, 0x00000000, 0x00000000, 0x00000018,
                   0xC2C4C700, 0x00000000, 0x00000030, 0x85898E01, 0x00000000, 0x00000060, 0x0B131C03, 0x00000030)
  {
    GivenWords(block);
    Expansions();
    hide Expand, Abc, Zeros;
    assert Schedule(block, 16) == 0xC2C4C700 && Schedule(block, 17) == 0 && Schedule(block, 18) == 0x30;
    assert Schedule(block, 19) == 0x85898E01 && Schedule(block, 20) == 0 && Schedule(block, 21) == 0x60;
    assert Schedule(block, 22) == 0x0B131C03 && Schedule(block, 23) == 0x30;
    hide Schedule;
  }

  lemma EarlyRounds()
    ensures Round(Hash(0x67452301, 0xEFCDAB89, 0x98BADCFE, 0x10325476, 0xC3D2E1F0), 0, 0x61626380)
         == Hash(0x0116FC33, 0x67452301, 0x7BF36AE2, 0x98BADCFE, 0x10325476)
    ensures Round(Hash(0x0116FC33, 0x67452301, 0x7BF36AE2, 0x98BADCFE, 0x10325476), 1, 0x00000000)
         == Hash(0x8990536D, 0x0116FC33, 0x59D148C0, 0x7BF36AE2, 0x98BADCFE)
    ensures Round(Hash(0x8990536D, 0x0116FC33, 0x59D148C0, 0x7BF36AE2, 0x98BADCFE), 2, 0x00000000)
         == Hash(0xA1390F08, 0x8990536D, 0xC045BF0C, 0x59D148C0, 0x7BF36AE2)
    ensures Round(Hash(0xA1390F08, 0x8990536D, 0xC045BF0C, 0x59D148C0, 0x7BF36AE2), 3, 0x00000000)
         == Hash(0xCDD8E11B, 0xA1390F08, 0x626414DB, 0xC045BF0C, 0x59D148C0)
    ensures Round(Hash(0xCDD8E11B, 0xA1390F08, 0x626414DB, 0xC045BF0C, 0x59D148C0), 4, 0x00000000)
         == Hash(0xCFD499DE, 0xCDD8E11B, 0x284E43C2, 0x626414DB, 0xC045BF0C)
    ensures Round(Hash(0xCFD499DE, 0xCDD8E11B, 0x284E43C2, 0x626414DB, 0xC045BF0C), 5, 0x00000000)
         == Hash(0x3FC7CA40, 0xCFD499DE, 0xF3763846, 0x284E43C2, 0x626414DB)
    ensures Round(Hash(0x3FC7CA40, 0xCFD499DE, 0xF3763846, 0x284E43C2, 0x626414DB), 6, 0x00000000)
         == Hash(0x993E30C1, 0x3FC7CA40, 0xB3F52677, 0xF3763846, 0x284E43C2)
    ensures Round(Hash(0x993E30C1, 0x3FC7CA40, 0xB3F52677, 0xF3763846, 0x284E43C2), 7, 0x00000000)
         == Hash(0x9E8C07D4, 0x993E30C1, 0x0FF1F290, 0xB3F52677, 0xF3763846)
  {
  }

  lemma FirstRounds(block: seq<bv8>)
    requires |block| == BLOCK && Schedule(block, 0) == 0x61626380
    requires forall t: nat :: 1 <= t < 15 ==> Schedule(block, t) == 0
    ensures Rounds(H0, block, 8) == Hash(0x9E8C07D4, 0x993E30C1, 0x0FF1F290, 0xB3F52677, 0xF3763846)
  {
    EarlyRounds();
    hide Round, Schedule;
    assert Rounds(H0, block, 0) == H0;
    assert Rounds(H0, block, 1) == Round(Rounds(H0, block, 0), 0, Schedule(block, 0));
    assert Rounds(H0, block, 2) == Round(Rounds(H0, block, 1), 1, Schedule(block, 1));
    assert Rounds(H0, block, 3) == Round(Rounds(H0, block, 2), 2, Schedule(block, 2));
    assert Rounds(H0, block, 4) == Round(Rounds(H0, block, 3), 3, Schedule(block, 3));
    assert Rounds(H0, block, 5) == Round(Rounds(H0, block, 4), 4, Schedule(block, 4));
    assert Rounds(H0, block, 6) == Round(Rounds(H0, block, 5), 5, Schedule(block, 5));
    assert Rounds(H0, block, 7) == Round(Rounds(H0, block, 6), 6, Schedule(block, 6));
  }

  lemma Start(block: seq<bv8>)
    requires block == Abc() + [0x80] + Zeros(52) + [0, 0, 0, 0, 0, 0, 0, 24]
    ensures |block| == BLOCK && On(block, 8) ==
            Run(Window(0x00000000, 0x00000000, 0x00000000, 0x00000000, 0x00000000, 0x00000000, 0x00000000, 0x00000018,
                       0xC2C4C700, 0x00000000, 0x00000030, 0x85898E01, 0x00000000, 0x00000060, 0x0B131C03, 0x00000030),
                Hash(0x9E8C07D4, 0x993E30C1, 0x0FF1F290, 0xB3F52677, 0xF3763846))
  {
    FirstWords(block);
    GivenWords(block);
    FirstRounds(block);
    hide From, Rounds, Schedule, Abc, Zeros;
  }

  lemma Octets()
    ensures Octet(0) == 0 && Octet(24) == 24
  {
  }

  lemma {:induction false} NoDigit(i: nat)
    ensures Digit256(0, i) == 0
    decreases i
  {
    Octets();
    hide Octet;
    if i > 0 {
      NoDigit(i - 1);
    }
  }

  lemma Lengths()
    ensures Length64(24) == [0, 0, 0, 0, 0, 0, 0, 24]
  {
    Octets();
    hide Octet;
    var s := Length64(24);
    forall i | 0 <= i < 7 ensures s[i] == 0 {
      assert s[i] == Digit256(24, 7 - i) == Digit256(0, 6 - i);
      NoDigit(6 - i);
    }
    assert s[7] == Digit256(24, 0) == 24;
  }

  lemma PaddedAbc(block: seq<bv8>)
    requires block == Abc() + [0x80] + Zeros(52) + [0, 0, 0, 0, 0, 0, 0, 24]
    ensures Pad(Abc()) == block
  {
    hide Length64, Zeros;
    Lengths();
  }

  lemma LastSum(s: Hash)
    requires s == Hash(0x42541B35, 0x5738D5E1, 0x21834873, 0x681E6DF6, 0xD8FDF6AD)
    ensures Add(H0, s) == Hash(0xA9993E36, 0x4706816A, 0xBA3E2571, 0x7850C26C, 0x9CD0D89D)
  {
  }

  lemma DigestBytes(s: Hash)
    requires s == Hash(0xA9993E36, 0x4706816A, 0xBA3E2571, 0x7850C26C, 0x9CD0D89D)
    ensures Digest(s) == [0xA9, 0x99, 0x3E, 0x36, 0x47, 0x06, 0x81, 0x6A, 0xBA, 0x3E,
                          0x25, 0x71, 0x78, 0x50, 0xC2, 0x6C, 0x9C, 0xD0, 0xD8, 0x9D]
  {
  }

  /** The digest of "abc" is the one FIPS 180-4 gives. */
  lemma DigestOfAbc()
    ensures HashOf(Abc()) == [0xA9, 0x99, 0x3E, 0x36, 0x47, 0x06, 0x81, 0x6A, 0xBA, 0x3E,
                              0x25, 0x71, 0x78, 0x50, 0xC2, 0x6C, 0x9C, 0xD0, 0xD8, 0x9D]
  {
    hide On, Add, Digest, Compress, Pad, Abc, Zeros;
    var block := Abc() + [0x80] + Zeros(52) + [0, 0, 0, 0, 0, 0, 0, 24];
    Start(block);
    Part0(block);
    Part1(block);
    Part2(block);
    Part3(block);
    Part4(block);
    PaddedAbc(block);
    Ends(block);
    NoBlocks();
    assert [] + block == block;
    OneBlock(H0, [], block);
    LastSum(Rounds(H0, block, 80));
    DigestBytes(Compress(H0, block));
  }

  lemma Ends(block: seq<bv8>)
    requires |block| == BLOCK
    ensures On(block, 80).s == Rounds(H0, block, 80) && Compress(H0, block) == Add(H0, Rounds(H0, block, 80))
  {
    hide Rounds;
  }

  lemma NoBlocks()
    ensures Blocks(H0, []) == H0
  {
  }
}
