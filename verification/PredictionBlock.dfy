/**
 The generated block of the covariance prediction: the intermediate values PS0 to PS222 and the
 55 upper-triangular entries of the quaternion/velocity/position part of the new covariance.

 Names and formulas are those of the source, one function per named constant. `P` is the
 covariance at the start of the call.
 */
module PredictionBlock {
  import opened Numeric
  import opened LinearAlgebra

  datatype Inputs = Inputs(
    q0: real, q1: real, q2: real, q3: real,
    dax: real, day: real, daz: real, dax_b: real, day_b: real, daz_b: real,
    dvx: real, dvy: real, dvz: real, dvx_b: real, dvy_b: real, dvz_b: real,
    daxVar: real, dayVar: real, dazVar: real, dvxVar: real, dvyVar: real, dvzVar: real,
    dt: real)

  function PS0(x: Inputs): real { Sq(x.q1) }
  function PS1(x: Inputs): real { 0.25 * x.daxVar }
  function PS2(x: Inputs): real { Sq(x.q2) }
  function PS3(x: Inputs): real { 0.25 * x.dayVar }
  function PS4(x: Inputs): real { Sq(x.q3) }
  function PS5(x: Inputs): real { 0.25 * x.dazVar }
  function PS6(x: Inputs): real { 0.5 * x.q1 }
  function PS7(x: Inputs): real { 0.5 * x.q2 }
  function PS8(x: Inputs, P: Table): real { PS7(x) * P(10, 11) }
  function PS9(x: Inputs): real { 0.5 * x.q3 }
  function PS10(x: Inputs, P: Table): real { PS9(x) * P(10, 12) }
  function PS11(x: Inputs): real { 0.5 * x.dax - 0.5 * x.dax_b }
  function PS12(x: Inputs): real { 0.5 * x.day - 0.5 * x.day_b }
  function PS13(x: Inputs): real { 0.5 * x.daz - 0.5 * x.daz_b }
  function PS14(x: Inputs, P: Table): real { PS10(x, P) - PS11(x) * P(1, 10) - PS12(x) * P(2, 10) - PS13(x) * P(3, 10)
      + PS6(x) * P(10, 10) + PS8(x, P) + P(0, 10) }
  function PS15(x: Inputs, P: Table): real { PS6(x) * P(10, 11) }
  function PS16(x: Inputs, P: Table): real { PS9(x) * P(11, 12) }
  function PS17(x: Inputs, P: Table): real { -PS11(x) * P(1, 11) - PS12(x) * P(2, 11) - PS13(x) * P(3, 11) + PS15(x,
      P) + PS16(x, P) + PS7(x) * P(11, 11) + P(0, 11) }
  function PS18(x: Inputs, P: Table): real { PS6(x) * P(10, 12) }
  function PS19(x: Inputs, P: Table): real { PS7(x) * P(11, 12) }
  function PS20(x: Inputs, P: Table): real { -PS11(x) * P(1, 12) - PS12(x) * P(2, 12) - PS13(x) * P(3, 12) + PS18(x,
      P) + PS19(x, P) + PS9(x) * P(12, 12) + P(0, 12) }
  function PS21(x: Inputs, P: Table): real { PS12(x) * P(1, 2) }
  function PS22(x: Inputs, P: Table): real { -PS13(x) * P(1, 3) }
  function PS23(x: Inputs, P: Table): real { -PS11(x) * P(1, 1) - PS21(x, P) + PS22(x, P) + PS6(x) * P(1, 10)
      + PS7(x) * P(1, 11) + PS9(x) * P(1, 12) + P(0, 1) }
  function PS24(x: Inputs, P: Table): real { -PS11(x) * P(1, 2) }
  function PS25(x: Inputs, P: Table): real { PS13(x) * P(2, 3) }
  function PS26(x: Inputs, P: Table): real { -PS12(x) * P(2, 2) + PS24(x, P) - PS25(x, P) + PS6(x) * P(2, 10)
      + PS7(x) * P(2, 11) + PS9(x) * P(2, 12) + P(0, 2) }
  function PS27(x: Inputs, P: Table): real { PS11(x) * P(1, 3) }
  function PS28(x: Inputs, P: Table): real { -PS12(x) * P(2, 3) }
  function PS29(x: Inputs, P: Table): real { -PS13(x) * P(3, 3) - PS27(x, P) + PS28(x, P) + PS6(x) * P(3, 10)
      + PS7(x) * P(3, 11) + PS9(x) * P(3, 12) + P(0, 3) }
  function PS30(x: Inputs, P: Table): real { PS11(x) * P(0, 1) }
  function PS31(x: Inputs, P: Table): real { PS12(x) * P(0, 2) }
  function PS32(x: Inputs, P: Table): real { PS13(x) * P(0, 3) }
  function PS33(x: Inputs, P: Table): real { -PS30(x, P) - PS31(x, P) - PS32(x, P) + PS6(x) * P(0, 10) + PS7(x) * P(0,
      11) + PS9(x) * P(0, 12) + P(0, 0) }
  function PS34(x: Inputs): real { 0.5 * x.q0 }
  function PS35(x: Inputs): real { x.q2 * x.q3 }
  function PS36(x: Inputs): real { x.q0 * x.q1 }
  function PS37(x: Inputs): real { x.q1 * x.q3 }
  function PS38(x: Inputs): real { x.q0 * x.q2 }
  function PS39(x: Inputs): real { x.q1 * x.q2 }
  function PS40(x: Inputs): real { x.q0 * x.q3 }
  function PS41(x: Inputs): real { 2.0 * PS2(x) }
  function PS42(x: Inputs): real { 2.0 * PS4(x) - 1.0 }
  function PS43(x: Inputs): real { PS41(x) + PS42(x) }
  function PS44(x: Inputs, P: Table): real { -PS11(x) * P(1, 13) - PS12(x) * P(2, 13) - PS13(x) * P(3, 13)
      + PS6(x) * P(10, 13) + PS7(x) * P(11, 13) + PS9(x) * P(12, 13) + P(0, 13) }
  function PS45(x: Inputs): real { PS37(x) + PS38(x) }
  function PS46(x: Inputs, P: Table): real { -PS11(x) * P(1, 15) - PS12(x) * P(2, 15) - PS13(x) * P(3, 15)
      + PS6(x) * P(10, 15) + PS7(x) * P(11, 15) + PS9(x) * P(12, 15) + P(0, 15) }
  function PS47(x: Inputs, P: Table): real { 2.0 * PS46(x, P) }
  function PS48(x: Inputs): real { x.dvy - x.dvy_b }
  function PS49(x: Inputs): real { PS48(x) * x.q0 }
  function PS50(x: Inputs): real { x.dvz - x.dvz_b }
  function PS51(x: Inputs): real { PS50(x) * x.q1 }
  function PS52(x: Inputs): real { x.dvx - x.dvx_b }
  function PS53(x: Inputs): real { PS52(x) * x.q3 }
  function PS54(x: Inputs): real { PS49(x) - PS51(x) + 2.0 * PS53(x) }
  function PS55(x: Inputs, P: Table): real { 2.0 * PS29(x, P) }
  function PS56(x: Inputs): real { -PS39(x) + PS40(x) }
  function PS57(x: Inputs, P: Table): real { -PS11(x) * P(1, 14) - PS12(x) * P(2, 14) - PS13(x) * P(3, 14)
      + PS6(x) * P(10, 14) + PS7(x) * P(11, 14) + PS9(x) * P(12, 14) + P(0, 14) }
  function PS58(x: Inputs, P: Table): real { 2.0 * PS57(x, P) }
  function PS59(x: Inputs): real { PS48(x) * x.q2 }
  function PS60(x: Inputs): real { PS50(x) * x.q3 }
  function PS61(x: Inputs): real { PS59(x) + PS60(x) }
  function PS62(x: Inputs, P: Table): real { 2.0 * PS23(x, P) }
  function PS63(x: Inputs): real { PS50(x) * x.q2 }
  function PS64(x: Inputs): real { PS48(x) * x.q3 }
  function PS65(x: Inputs): real { -PS64(x) }
  function PS66(x: Inputs): real { PS63(x) + PS65(x) }
  function PS67(x: Inputs, P: Table): real { 2.0 * PS33(x, P) }
  function PS68(x: Inputs): real { PS50(x) * x.q0 }
  function PS69(x: Inputs): real { PS48(x) * x.q1 }
  function PS70(x: Inputs): real { PS52(x) * x.q2 }
  function PS71(x: Inputs): real { PS68(x) + PS69(x) - 2.0 * PS70(x) }
  function PS72(x: Inputs, P: Table): real { 2.0 * PS26(x, P) }
  function PS73(x: Inputs, P: Table): real { -PS11(x) * P(1, 4) - PS12(x) * P(2, 4) - PS13(x) * P(3, 4) + PS6(x) * P(4,
      10) + PS7(x) * P(4, 11) + PS9(x) * P(4, 12) + P(0, 4) }
  function PS74(x: Inputs): real { 2.0 * PS0(x) }
  function PS75(x: Inputs): real { PS42(x) + PS74(x) }
  function PS76(x: Inputs): real { PS39(x) + PS40(x) }
  function PS77(x: Inputs, P: Table): real { 2.0 * PS44(x, P) }
  function PS78(x: Inputs): real { PS51(x) - PS53(x) }
  function PS79(x: Inputs): real { -PS70(x) }
  function PS80(x: Inputs): real { PS68(x) + 2.0 * PS69(x) + PS79(x) }
  function PS81(x: Inputs): real { -PS35(x) + PS36(x) }
  function PS82(x: Inputs): real { PS52(x) * x.q1 }
  function PS83(x: Inputs): real { PS60(x) + PS82(x) }
  function PS84(x: Inputs): real { PS52(x) * x.q0 }
  function PS85(x: Inputs): real { PS63(x) - 2.0 * PS64(x) + PS84(x) }
  function PS86(x: Inputs, P: Table): real { -PS11(x) * P(1, 5) - PS12(x) * P(2, 5) - PS13(x) * P(3, 5) + PS6(x) * P(5,
      10) + PS7(x) * P(5, 11) + PS9(x) * P(5, 12) + P(0, 5) }
  function PS87(x: Inputs): real { PS41(x) + PS74(x) - 1.0 }
  function PS88(x: Inputs): real { PS35(x) + PS36(x) }
  function PS89(x: Inputs): real { 2.0 * PS63(x) + PS65(x) + PS84(x) }
  function PS90(x: Inputs): real { -PS37(x) + PS38(x) }
  function PS91(x: Inputs): real { PS59(x) + PS82(x) }
  function PS92(x: Inputs): real { PS69(x) + PS79(x) }
  function PS93(x: Inputs): real { PS49(x) - 2.0 * PS51(x) + PS53(x) }
  function PS94(x: Inputs, P: Table): real { -PS11(x) * P(1, 6) - PS12(x) * P(2, 6) - PS13(x) * P(3, 6) + PS6(x) * P(6,
      10) + PS7(x) * P(6, 11) + PS9(x) * P(6, 12) + P(0, 6) }
  function PS95(x: Inputs): real { Sq(x.q0) }
  function PS96(x: Inputs, P: Table): real { -PS34(x) * P(10, 11) }
  function PS97(x: Inputs, P: Table): real { PS11(x) * P(0, 11) - PS12(x) * P(3, 11) + PS13(x) * P(2, 11) - PS19(x, P)
      + PS9(x) * P(11, 11) + PS96(x, P) + P(1, 11) }
  function PS98(x: Inputs, P: Table): real { PS13(x) * P(0, 2) }
  function PS99(x: Inputs, P: Table): real { PS12(x) * P(0, 3) }
  function PS100(x: Inputs, P: Table): real { PS11(x) * P(0, 0) - PS34(x) * P(0, 10) - PS7(x) * P(0, 12) + PS9(x) * P(0,
      11) + PS98(x, P) - PS99(x, P) + P(0, 1) }
  function PS101(x: Inputs, P: Table): real { PS11(x) * P(0, 2) }
  function PS102(x: Inputs, P: Table): real { PS101(x, P) + PS13(x) * P(2, 2) + PS28(x, P) - PS34(x) * P(2, 10)
      - PS7(x) * P(2, 12) + PS9(x) * P(2, 11) + P(1, 2) }
  function PS103(x: Inputs, P: Table): real { PS9(x) * P(10, 11) }
  function PS104(x: Inputs, P: Table): real { PS7(x) * P(10, 12) }
  function PS105(x: Inputs, P: Table): real { PS103(x, P) - PS104(x, P) + PS11(x) * P(0, 10) - PS12(x) * P(3, 10)
      + PS13(x) * P(2, 10) - PS34(x) * P(10, 10) + P(1, 10) }
  function PS106(x: Inputs, P: Table): real { -PS34(x) * P(10, 12) }
  function PS107(x: Inputs, P: Table): real { PS106(x, P) + PS11(x) * P(0, 12) - PS12(x) * P(3, 12) + PS13(x) * P(2,
      12) + PS16(x, P) - PS7(x) * P(12, 12) + P(1, 12) }
  function PS108(x: Inputs, P: Table): real { PS11(x) * P(0, 3) }
  function PS109(x: Inputs, P: Table): real { PS108(x, P) - PS12(x) * P(3, 3) + PS25(x, P) - PS34(x) * P(3, 10)
      - PS7(x) * P(3, 12) + PS9(x) * P(3, 11) + P(1, 3) }
  function PS110(x: Inputs, P: Table): real { PS13(x) * P(1, 2) }
  function PS111(x: Inputs, P: Table): real { PS12(x) * P(1, 3) }
  function PS112(x: Inputs, P: Table): real { PS110(x, P) - PS111(x, P) + PS30(x, P) - PS34(x) * P(1, 10)
      - PS7(x) * P(1, 12) + PS9(x) * P(1, 11) + P(1, 1) }
  function PS113(x: Inputs, P: Table): real { PS11(x) * P(0, 13) - PS12(x) * P(3, 13) + PS13(x) * P(2, 13)
      - PS34(x) * P(10, 13) - PS7(x) * P(12, 13) + PS9(x) * P(11, 13) + P(1, 13) }
  function PS114(x: Inputs, P: Table): real { PS11(x) * P(0, 15) - PS12(x) * P(3, 15) + PS13(x) * P(2, 15)
      - PS34(x) * P(10, 15) - PS7(x) * P(12, 15) + PS9(x) * P(11, 15) + P(1, 15) }
  function PS115(x: Inputs, P: Table): real { 2.0 * PS114(x, P) }
  function PS116(x: Inputs, P: Table): real { 2.0 * PS109(x, P) }
  function PS117(x: Inputs, P: Table): real { PS11(x) * P(0, 14) - PS12(x) * P(3, 14) + PS13(x) * P(2, 14)
      - PS34(x) * P(10, 14) - PS7(x) * P(12, 14) + PS9(x) * P(11, 14) + P(1, 14) }
  function PS118(x: Inputs, P: Table): real { 2.0 * PS117(x, P) }
  function PS119(x: Inputs, P: Table): real { 2.0 * PS112(x, P) }
  function PS120(x: Inputs, P: Table): real { 2.0 * PS100(x, P) }
  function PS121(x: Inputs, P: Table): real { 2.0 * PS102(x, P) }
  function PS122(x: Inputs, P: Table): real { PS11(x) * P(0, 4) - PS12(x) * P(3, 4) + PS13(x) * P(2, 4) - PS34(x) * P(4,
      10) - PS7(x) * P(4, 12) + PS9(x) * P(4, 11) + P(1, 4) }
  function PS123(x: Inputs, P: Table): real { 2.0 * PS113(x, P) }
  function PS124(x: Inputs, P: Table): real { PS11(x) * P(0, 5) - PS12(x) * P(3, 5) + PS13(x) * P(2, 5) - PS34(x) * P(5,
      10) - PS7(x) * P(5, 12) + PS9(x) * P(5, 11) + P(1, 5) }
  function PS125(x: Inputs, P: Table): real { PS11(x) * P(0, 6) - PS12(x) * P(3, 6) + PS13(x) * P(2, 6) - PS34(x) * P(6,
      10) - PS7(x) * P(6, 12) + PS9(x) * P(6, 11) + P(1, 6) }
  function PS126(x: Inputs, P: Table): real { -PS34(x) * P(11, 12) }
  function PS127(x: Inputs, P: Table): real { -PS10(x, P) + PS11(x) * P(3, 12) + PS12(x) * P(0, 12) + PS126(x, P)
      - PS13(x) * P(1, 12) + PS6(x) * P(12, 12) + P(2, 12) }
  function PS128(x: Inputs, P: Table): real { PS11(x) * P(3, 3) + PS22(x, P) - PS34(x) * P(3, 11) + PS6(x) * P(3, 12)
      - PS9(x) * P(3, 10) + PS99(x, P) + P(2, 3) }
  function PS129(x: Inputs, P: Table): real { PS13(x) * P(0, 1) }
  function PS130(x: Inputs, P: Table): real { PS108(x, P) + PS12(x) * P(0, 0) - PS129(x, P) - PS34(x) * P(0, 11)
      + PS6(x) * P(0, 12) - PS9(x) * P(0, 10) + P(0, 2) }
  function PS131(x: Inputs, P: Table): real { PS6(x) * P(11, 12) }
  function PS132(x: Inputs, P: Table): real { -PS103(x, P) + PS11(x) * P(3, 11) + PS12(x) * P(0, 11) - PS13(x) * P(1,
      11) + PS131(x, P) - PS34(x) * P(11, 11) + P(2, 11) }
  function PS133(x: Inputs, P: Table): real { PS11(x) * P(3, 10) + PS12(x) * P(0, 10) - PS13(x) * P(1, 10) + PS18(x,
      P) - PS9(x) * P(10, 10) + PS96(x, P) + P(2, 10) }
  function PS134(x: Inputs, P: Table): real { PS12(x) * P(0, 1) }
  function PS135(x: Inputs, P: Table): real { -PS13(x) * P(1, 1) + PS134(x, P) + PS27(x, P) - PS34(x) * P(1, 11)
      + PS6(x) * P(1, 12) - PS9(x) * P(1, 10) + P(1, 2) }
  function PS136(x: Inputs, P: Table): real { PS11(x) * P(2, 3) }
  function PS137(x: Inputs, P: Table): real { -PS110(x, P) + PS136(x, P) + PS31(x, P) - PS34(x) * P(2, 11)
      + PS6(x) * P(2, 12) - PS9(x) * P(2, 10) + P(2, 2) }
  function PS138(x: Inputs, P: Table): real { PS11(x) * P(3, 13) + PS12(x) * P(0, 13) - PS13(x) * P(1, 13)
      - PS34(x) * P(11, 13) + PS6(x) * P(12, 13) - PS9(x) * P(10, 13) + P(2, 13) }
  function PS139(x: Inputs, P: Table): real { PS11(x) * P(3, 15) + PS12(x) * P(0, 15) - PS13(x) * P(1, 15)
      - PS34(x) * P(11, 15) + PS6(x) * P(12, 15) - PS9(x) * P(10, 15) + P(2, 15) }
  function PS140(x: Inputs, P: Table): real { 2.0 * PS139(x, P) }
  function PS141(x: Inputs, P: Table): real { 2.0 * PS128(x, P) }
  function PS142(x: Inputs, P: Table): real { PS11(x) * P(3, 14) + PS12(x) * P(0, 14) - PS13(x) * P(1, 14)
      - PS34(x) * P(11, 14) + PS6(x) * P(12, 14) - PS9(x) * P(10, 14) + P(2, 14) }
  function PS143(x: Inputs, P: Table): real { 2.0 * PS142(x, P) }
  function PS144(x: Inputs, P: Table): real { 2.0 * PS135(x, P) }
  function PS145(x: Inputs, P: Table): real { 2.0 * PS130(x, P) }
  function PS146(x: Inputs, P: Table): real { 2.0 * PS137(x, P) }
  function PS147(x: Inputs, P: Table): real { PS11(x) * P(3, 4) + PS12(x) * P(0, 4) - PS13(x) * P(1, 4) - PS34(x) * P(4,
      11) + PS6(x) * P(4, 12) - PS9(x) * P(4, 10) + P(2, 4) }
  function PS148(x: Inputs, P: Table): real { 2.0 * PS138(x, P) }
  function PS149(x: Inputs, P: Table): real { PS11(x) * P(3, 5) + PS12(x) * P(0, 5) - PS13(x) * P(1, 5) - PS34(x) * P(5,
      11) + PS6(x) * P(5, 12) - PS9(x) * P(5, 10) + P(2, 5) }
  function PS150(x: Inputs, P: Table): real { PS11(x) * P(3, 6) + PS12(x) * P(0, 6) - PS13(x) * P(1, 6) - PS34(x) * P(6,
      11) + PS6(x) * P(6, 12) - PS9(x) * P(6, 10) + P(2, 6) }
  function PS151(x: Inputs, P: Table): real { PS106(x, P) - PS11(x) * P(2, 10) + PS12(x) * P(1, 10) + PS13(x) * P(0,
      10) - PS15(x, P) + PS7(x) * P(10, 10) + P(3, 10) }
  function PS152(x: Inputs, P: Table): real { PS12(x) * P(1, 1) + PS129(x, P) + PS24(x, P) - PS34(x) * P(1, 12)
      - PS6(x) * P(1, 11) + PS7(x) * P(1, 10) + P(1, 3) }
  function PS153(x: Inputs, P: Table): real { -PS101(x, P) + PS13(x) * P(0, 0) + PS134(x, P) - PS34(x) * P(0, 12)
      - PS6(x) * P(0, 11) + PS7(x) * P(0, 10) + P(0, 3) }
  function PS154(x: Inputs, P: Table): real { PS104(x, P) - PS11(x) * P(2, 12) + PS12(x) * P(1, 12) + PS13(x) * P(0,
      12) - PS131(x, P) - PS34(x) * P(12, 12) + P(3, 12) }
  function PS155(x: Inputs, P: Table): real { -PS11(x) * P(2, 11) + PS12(x) * P(1, 11) + PS126(x, P) + PS13(x) * P(0,
      11) - PS6(x) * P(11, 11) + PS8(x, P) + P(3, 11) }
  function PS156(x: Inputs, P: Table): real { -PS11(x) * P(2, 2) + PS21(x, P) - PS34(x) * P(2, 12) - PS6(x) * P(2, 11)
      + PS7(x) * P(2, 10) + PS98(x, P) + P(2, 3) }
  function PS157(x: Inputs, P: Table): real { PS111(x, P) - PS136(x, P) + PS32(x, P) - PS34(x) * P(3, 12)
      - PS6(x) * P(3, 11) + PS7(x) * P(3, 10) + P(3, 3) }
  function PS158(x: Inputs, P: Table): real { -PS11(x) * P(2, 13) + PS12(x) * P(1, 13) + PS13(x) * P(0, 13)
      - PS34(x) * P(12, 13) - PS6(x) * P(11, 13) + PS7(x) * P(10, 13) + P(3, 13) }
  function PS159(x: Inputs, P: Table): real { -PS11(x) * P(2, 15) + PS12(x) * P(1, 15) + PS13(x) * P(0, 15)
      - PS34(x) * P(12, 15) - PS6(x) * P(11, 15) + PS7(x) * P(10, 15) + P(3, 15) }
  function PS160(x: Inputs, P: Table): real { 2.0 * PS159(x, P) }
  function PS161(x: Inputs, P: Table): real { 2.0 * PS157(x, P) }
  function PS162(x: Inputs, P: Table): real { -PS11(x) * P(2, 14) + PS12(x) * P(1, 14) + PS13(x) * P(0, 14)
      - PS34(x) * P(12, 14) - PS6(x) * P(11, 14) + PS7(x) * P(10, 14) + P(3, 14) }
  function PS163(x: Inputs, P: Table): real { 2.0 * PS162(x, P) }
  function PS164(x: Inputs, P: Table): real { 2.0 * PS152(x, P) }
  function PS165(x: Inputs, P: Table): real { 2.0 * PS153(x, P) }
  function PS166(x: Inputs, P: Table): real { 2.0 * PS156(x, P) }
  function PS167(x: Inputs, P: Table): real { -PS11(x) * P(2, 4) + PS12(x) * P(1, 4) + PS13(x) * P(0, 4)
      - PS34(x) * P(4, 12) - PS6(x) * P(4, 11) + PS7(x) * P(4, 10) + P(3, 4) }
  function PS168(x: Inputs, P: Table): real { 2.0 * PS158(x, P) }
  function PS169(x: Inputs, P: Table): real { -PS11(x) * P(2, 5) + PS12(x) * P(1, 5) + PS13(x) * P(0, 5)
      - PS34(x) * P(5, 12) - PS6(x) * P(5, 11) + PS7(x) * P(5, 10) + P(3, 5) }
  function PS170(x: Inputs, P: Table): real { -PS11(x) * P(2, 6) + PS12(x) * P(1, 6) + PS13(x) * P(0, 6)
      - PS34(x) * P(6, 12) - PS6(x) * P(6, 11) + PS7(x) * P(6, 10) + P(3, 6) }
  function PS171(x: Inputs): real { 2.0 * PS45(x) }
  function PS172(x: Inputs): real { 2.0 * PS56(x) }
  function PS173(x: Inputs): real { 2.0 * PS61(x) }
  function PS174(x: Inputs): real { 2.0 * PS66(x) }
  function PS175(x: Inputs): real { 2.0 * PS71(x) }
  function PS176(x: Inputs): real { 2.0 * PS54(x) }
  function PS177(x: Inputs, P: Table): real { -PS171(x) * P(13, 15) + PS172(x) * P(13, 14) + PS173(x) * P(1, 13)
      + PS174(x) * P(0, 13) + PS175(x) * P(2, 13) - PS176(x) * P(3, 13) + PS43(x) * P(13, 13) + P(4, 13) }
  function PS178(x: Inputs, P: Table): real { -PS171(x) * P(15, 15) + PS172(x) * P(14, 15) + PS173(x) * P(1, 15)
      + PS174(x) * P(0, 15) + PS175(x) * P(2, 15) - PS176(x) * P(3, 15) + PS43(x) * P(13, 15) + P(4, 15) }
  function PS179(x: Inputs, P: Table): real { -PS171(x) * P(3, 15) + PS172(x) * P(3, 14) + PS173(x) * P(1, 3)
      + PS174(x) * P(0, 3) + PS175(x) * P(2, 3) - PS176(x) * P(3, 3) + PS43(x) * P(3, 13) + P(3, 4) }
  function PS180(x: Inputs, P: Table): real { -PS171(x) * P(14, 15) + PS172(x) * P(14, 14) + PS173(x) * P(1, 14)
      + PS174(x) * P(0, 14) + PS175(x) * P(2, 14) - PS176(x) * P(3, 14) + PS43(x) * P(13, 14) + P(4, 14) }
  function PS181(x: Inputs, P: Table): real { -PS171(x) * P(1, 15) + PS172(x) * P(1, 14) + PS173(x) * P(1, 1)
      + PS174(x) * P(0, 1) + PS175(x) * P(1, 2) - PS176(x) * P(1, 3) + PS43(x) * P(1, 13) + P(1, 4) }
  function PS182(x: Inputs, P: Table): real { -PS171(x) * P(0, 15) + PS172(x) * P(0, 14) + PS173(x) * P(0, 1)
      + PS174(x) * P(0, 0) + PS175(x) * P(0, 2) - PS176(x) * P(0, 3) + PS43(x) * P(0, 13) + P(0, 4) }
  function PS183(x: Inputs, P: Table): real { -PS171(x) * P(2, 15) + PS172(x) * P(2, 14) + PS173(x) * P(1, 2)
      + PS174(x) * P(0, 2) + PS175(x) * P(2, 2) - PS176(x) * P(2, 3) + PS43(x) * P(2, 13) + P(2, 4) }
  function PS184(x: Inputs): real { 4.0 * x.dvyVar }
  function PS185(x: Inputs): real { 4.0 * x.dvzVar }
  function PS186(x: Inputs, P: Table): real { -PS171(x) * P(4, 15) + PS172(x) * P(4, 14) + PS173(x) * P(1, 4)
      + PS174(x) * P(0, 4) + PS175(x) * P(2, 4) - PS176(x) * P(3, 4) + PS43(x) * P(4, 13) + P(4, 4) }
  function PS187(x: Inputs, P: Table): real { 2.0 * PS177(x, P) }
  function PS188(x: Inputs, P: Table): real { 2.0 * PS182(x, P) }
  function PS189(x: Inputs, P: Table): real { 2.0 * PS181(x, P) }
  function PS190(x: Inputs): real { 2.0 * PS81(x) }
  function PS191(x: Inputs, P: Table): real { 2.0 * PS183(x, P) }
  function PS192(x: Inputs, P: Table): real { 2.0 * PS179(x, P) }
  function PS193(x: Inputs): real { 2.0 * PS76(x) }
  function PS194(x: Inputs): real { PS43(x) * x.dvxVar }
  function PS195(x: Inputs): real { PS75(x) * x.dvyVar }
  function PS196(x: Inputs, P: Table): real { -PS171(x) * P(5, 15) + PS172(x) * P(5, 14) + PS173(x) * P(1, 5)
      + PS174(x) * P(0, 5) + PS175(x) * P(2, 5) - PS176(x) * P(3, 5) + PS43(x) * P(5, 13) + P(4, 5) }
  function PS197(x: Inputs): real { 2.0 * PS88(x) }
  function PS198(x: Inputs): real { PS87(x) * x.dvzVar }
  function PS199(x: Inputs): real { 2.0 * PS90(x) }
  function PS200(x: Inputs, P: Table): real { -PS171(x) * P(6, 15) + PS172(x) * P(6, 14) + PS173(x) * P(1, 6)
      + PS174(x) * P(0, 6) + PS175(x) * P(2, 6) - PS176(x) * P(3, 6) + PS43(x) * P(6, 13) + P(4, 6) }
  function PS201(x: Inputs): real { 2.0 * PS83(x) }
  function PS202(x: Inputs): real { 2.0 * PS78(x) }
  function PS203(x: Inputs): real { 2.0 * PS85(x) }
  function PS204(x: Inputs): real { 2.0 * PS80(x) }
  function PS205(x: Inputs, P: Table): real { PS190(x) * P(14, 15) - PS193(x) * P(13, 14) + PS201(x) * P(2, 14)
      - PS202(x) * P(0, 14) + PS203(x) * P(3, 14) - PS204(x) * P(1, 14) + PS75(x) * P(14, 14) + P(5, 14) }
  function PS206(x: Inputs, P: Table): real { PS190(x) * P(13, 15) - PS193(x) * P(13, 13) + PS201(x) * P(2, 13)
      - PS202(x) * P(0, 13) + PS203(x) * P(3, 13) - PS204(x) * P(1, 13) + PS75(x) * P(13, 14) + P(5, 13) }
  function PS207(x: Inputs, P: Table): real { PS190(x) * P(0, 15) - PS193(x) * P(0, 13) + PS201(x) * P(0, 2)
      - PS202(x) * P(0, 0) + PS203(x) * P(0, 3) - PS204(x) * P(0, 1) + PS75(x) * P(0, 14) + P(0, 5) }
  function PS208(x: Inputs, P: Table): real { PS190(x) * P(1, 15) - PS193(x) * P(1, 13) + PS201(x) * P(1, 2)
      - PS202(x) * P(0, 1) + PS203(x) * P(1, 3) - PS204(x) * P(1, 1) + PS75(x) * P(1, 14) + P(1, 5) }
  function PS209(x: Inputs, P: Table): real { PS190(x) * P(15, 15) - PS193(x) * P(13, 15) + PS201(x) * P(2, 15)
      - PS202(x) * P(0, 15) + PS203(x) * P(3, 15) - PS204(x) * P(1, 15) + PS75(x) * P(14, 15) + P(5, 15) }
  function PS210(x: Inputs, P: Table): real { PS190(x) * P(2, 15) - PS193(x) * P(2, 13) + PS201(x) * P(2, 2)
      - PS202(x) * P(0, 2) + PS203(x) * P(2, 3) - PS204(x) * P(1, 2) + PS75(x) * P(2, 14) + P(2, 5) }
  function PS211(x: Inputs, P: Table): real { PS190(x) * P(3, 15) - PS193(x) * P(3, 13) + PS201(x) * P(2, 3)
      - PS202(x) * P(0, 3) + PS203(x) * P(3, 3) - PS204(x) * P(1, 3) + PS75(x) * P(3, 14) + P(3, 5) }
  function PS212(x: Inputs): real { 4.0 * x.dvxVar }
  function PS213(x: Inputs, P: Table): real { PS190(x) * P(5, 15) - PS193(x) * P(5, 13) + PS201(x) * P(2, 5)
      - PS202(x) * P(0, 5) + PS203(x) * P(3, 5) - PS204(x) * P(1, 5) + PS75(x) * P(5, 14) + P(5, 5) }
  function PS214(x: Inputs): real { 2.0 * PS89(x) }
  function PS215(x: Inputs): real { 2.0 * PS91(x) }
  function PS216(x: Inputs): real { 2.0 * PS92(x) }
  function PS217(x: Inputs): real { 2.0 * PS93(x) }
  function PS218(x: Inputs, P: Table): real { PS190(x) * P(6, 15) - PS193(x) * P(6, 13) + PS201(x) * P(2, 6)
      - PS202(x) * P(0, 6) + PS203(x) * P(3, 6) - PS204(x) * P(1, 6) + PS75(x) * P(6, 14) + P(5, 6) }
  function PS219(x: Inputs, P: Table): real { -PS197(x) * P(14, 15) + PS199(x) * P(13, 15) - PS214(x) * P(2, 15)
      + PS215(x) * P(3, 15) + PS216(x) * P(0, 15) + PS217(x) * P(1, 15) + PS87(x) * P(15, 15) + P(6, 15) }
  function PS220(x: Inputs, P: Table): real { -PS197(x) * P(14, 14) + PS199(x) * P(13, 14) - PS214(x) * P(2, 14)
      + PS215(x) * P(3, 14) + PS216(x) * P(0, 14) + PS217(x) * P(1, 14) + PS87(x) * P(14, 15) + P(6, 14) }
  function PS221(x: Inputs, P: Table): real { -PS197(x) * P(13, 14) + PS199(x) * P(13, 13) - PS214(x) * P(2, 13)
      + PS215(x) * P(3, 13) + PS216(x) * P(0, 13) + PS217(x) * P(1, 13) + PS87(x) * P(13, 15) + P(6, 13) }
  function PS222(x: Inputs, P: Table): real { -PS197(x) * P(6, 14) + PS199(x) * P(6, 13) - PS214(x) * P(2, 6)
      + PS215(x) * P(3, 6) + PS216(x) * P(0, 6) + PS217(x) * P(1, 6) + PS87(x) * P(6, 15) + P(6, 6) }

  // ---- entries of the new covariance ----

  function Next0_0(x: Inputs, P: Table): real {
    PS0(x) * PS1(x) - PS11(x) * PS23(x, P) - PS12(x) * PS26(x, P) - PS13(x) * PS29(x, P) + PS14(x, P) * PS6(x) + PS17(x,
        P) * PS7(x) + PS2(x) * PS3(x) + PS20(x, P) * PS9(x) + PS33(x, P) + PS4(x) * PS5(x)
  }

  function Next0_1(x: Inputs, P: Table): real {
    -PS1(x) * PS36(x) + PS11(x) * PS33(x, P) - PS12(x) * PS29(x, P) + PS13(x) * PS26(x, P) - PS14(x, P) * PS34(x)
        + PS17(x, P) * PS9(x) - PS20(x, P) * PS7(x) + PS23(x, P) + PS3(x) * PS35(x) - PS35(x) * PS5(x)
  }

  function Next1_1(x: Inputs, P: Table): real {
    PS1(x) * PS95(x) + PS100(x, P) * PS11(x) + PS102(x, P) * PS13(x) - PS105(x, P) * PS34(x) - PS107(x, P) * PS7(x)
        - PS109(x, P) * PS12(x) + PS112(x, P) + PS2(x) * PS5(x) + PS3(x) * PS4(x) + PS9(x) * PS97(x, P)
  }

  function Next0_2(x: Inputs, P: Table): real {
    -PS1(x) * PS37(x) + PS11(x) * PS29(x, P) + PS12(x) * PS33(x, P) - PS13(x) * PS23(x, P) - PS14(x, P) * PS9(x)
        - PS17(x, P) * PS34(x) + PS20(x, P) * PS6(x) + PS26(x, P) - PS3(x) * PS38(x) + PS37(x) * PS5(x)
  }

  function Next1_2(x: Inputs, P: Table): real {
    PS1(x) * PS40(x) + PS100(x, P) * PS12(x) + PS102(x, P) - PS105(x, P) * PS9(x) + PS107(x, P) * PS6(x) + PS109(x,
        P) * PS11(x) - PS112(x, P) * PS13(x) - PS3(x) * PS40(x) - PS34(x) * PS97(x, P) - PS39(x) * PS5(x)
  }

  function Next2_2(x: Inputs, P: Table): real {
    PS0(x) * PS5(x) + PS1(x) * PS4(x) + PS11(x) * PS128(x, P) + PS12(x) * PS130(x, P) + PS127(x, P) * PS6(x)
        - PS13(x) * PS135(x, P) - PS132(x, P) * PS34(x) - PS133(x, P) * PS9(x) + PS137(x, P) + PS3(x) * PS95(x)
  }

  function Next0_3(x: Inputs, P: Table): real {
    PS1(x) * PS39(x) - PS11(x) * PS26(x, P) + PS12(x) * PS23(x, P) + PS13(x) * PS33(x, P) + PS14(x, P) * PS7(x)
        - PS17(x, P) * PS6(x) - PS20(x, P) * PS34(x) + PS29(x, P) - PS3(x) * PS39(x) - PS40(x) * PS5(x)
  }

  function Next1_3(x: Inputs, P: Table): real {
    -PS1(x) * PS38(x) + PS100(x, P) * PS13(x) - PS102(x, P) * PS11(x) + PS105(x, P) * PS7(x) - PS107(x, P) * PS34(x)
        + PS109(x, P) + PS112(x, P) * PS12(x) - PS3(x) * PS37(x) + PS38(x) * PS5(x) - PS6(x) * PS97(x, P)
  }

  function Next2_3(x: Inputs, P: Table): real {
    -PS1(x) * PS35(x) - PS11(x) * PS137(x, P) + PS12(x) * PS135(x, P) - PS127(x, P) * PS34(x) + PS128(x, P)
        + PS13(x) * PS130(x, P) - PS132(x, P) * PS6(x) + PS133(x, P) * PS7(x) + PS3(x) * PS36(x) - PS36(x) * PS5(x)
  }

  function Next3_3(x: Inputs, P: Table): real {
    PS0(x) * PS3(x) + PS1(x) * PS2(x) - PS11(x) * PS156(x, P) + PS12(x) * PS152(x, P) + PS13(x) * PS153(x, P) + PS151(x,
        P) * PS7(x) - PS154(x, P) * PS34(x) - PS155(x, P) * PS6(x) + PS157(x, P) + PS5(x) * PS95(x)
  }

  function Next0_4(x: Inputs, P: Table): real {
    PS43(x) * PS44(x, P) - PS45(x) * PS47(x, P) - PS54(x) * PS55(x, P) + PS56(x) * PS58(x, P) + PS61(x) * PS62(x, P)
        + PS66(x) * PS67(x, P) + PS71(x) * PS72(x, P) + PS73(x, P)
  }

  function Next1_4(x: Inputs, P: Table): real {
    PS113(x, P) * PS43(x) - PS115(x, P) * PS45(x) - PS116(x, P) * PS54(x) + PS118(x, P) * PS56(x) + PS119(x,
        P) * PS61(x) + PS120(x, P) * PS66(x) + PS121(x, P) * PS71(x) + PS122(x, P)
  }

  function Next2_4(x: Inputs, P: Table): real {
    PS138(x, P) * PS43(x) - PS140(x, P) * PS45(x) - PS141(x, P) * PS54(x) + PS143(x, P) * PS56(x) + PS144(x,
        P) * PS61(x) + PS145(x, P) * PS66(x) + PS146(x, P) * PS71(x) + PS147(x, P)
  }

  function Next3_4(x: Inputs, P: Table): real {
    PS158(x, P) * PS43(x) - PS160(x, P) * PS45(x) - PS161(x, P) * PS54(x) + PS163(x, P) * PS56(x) + PS164(x,
        P) * PS61(x) + PS165(x, P) * PS66(x) + PS166(x, P) * PS71(x) + PS167(x, P)
  }

  function Next4_4(x: Inputs, P: Table): real {
    -PS171(x) * PS178(x, P) + PS172(x) * PS180(x, P) + PS173(x) * PS181(x, P) + PS174(x) * PS182(x, P)
        + PS175(x) * PS183(x, P) - PS176(x) * PS179(x, P) + PS177(x, P) * PS43(x) + PS184(x) * Sq(PS56(x))
        + PS185(x) * Sq(PS45(x)) + PS186(x, P) + Sq(PS43(x)) * x.dvxVar
  }

  function Next0_5(x: Inputs, P: Table): real {
    PS47(x, P) * PS81(x) + PS55(x, P) * PS85(x) + PS57(x, P) * PS75(x) - PS62(x, P) * PS80(x) - PS67(x, P) * PS78(x)
        + PS72(x, P) * PS83(x) - PS76(x) * PS77(x, P) + PS86(x, P)
  }

  function Next1_5(x: Inputs, P: Table): real {
    PS115(x, P) * PS81(x) + PS116(x, P) * PS85(x) + PS117(x, P) * PS75(x) - PS119(x, P) * PS80(x) - PS120(x,
        P) * PS78(x) + PS121(x, P) * PS83(x) - PS123(x, P) * PS76(x) + PS124(x, P)
  }

  function Next2_5(x: Inputs, P: Table): real {
    PS140(x, P) * PS81(x) + PS141(x, P) * PS85(x) + PS142(x, P) * PS75(x) - PS144(x, P) * PS80(x) - PS145(x,
        P) * PS78(x) + PS146(x, P) * PS83(x) - PS148(x, P) * PS76(x) + PS149(x, P)
  }

  function Next3_5(x: Inputs, P: Table): real {
    PS160(x, P) * PS81(x) + PS161(x, P) * PS85(x) + PS162(x, P) * PS75(x) - PS164(x, P) * PS80(x) - PS165(x,
        P) * PS78(x) + PS166(x, P) * PS83(x) - PS168(x, P) * PS76(x) + PS169(x, P)
  }

  function Next4_5(x: Inputs, P: Table): real {
    PS172(x) * PS195(x) + PS178(x, P) * PS190(x) + PS180(x, P) * PS75(x) - PS185(x) * PS45(x) * PS81(x) - PS187(x,
        P) * PS76(x) - PS188(x, P) * PS78(x) - PS189(x, P) * PS80(x) + PS191(x, P) * PS83(x) + PS192(x, P) * PS85(x)
        - PS193(x) * PS194(x) + PS196(x, P)
  }

  function Next5_5(x: Inputs, P: Table): real {
    PS185(x) * Sq(PS81(x)) + PS190(x) * PS209(x, P) - PS193(x) * PS206(x, P) + PS201(x) * PS210(x, P)
        - PS202(x) * PS207(x, P) + PS203(x) * PS211(x, P) - PS204(x) * PS208(x, P) + PS205(x, P) * PS75(x)
        + PS212(x) * Sq(PS76(x)) + PS213(x, P) + Sq(PS75(x)) * x.dvyVar
  }

  function Next0_6(x: Inputs, P: Table): real {
    PS46(x, P) * PS87(x) + PS55(x, P) * PS91(x) - PS58(x, P) * PS88(x) + PS62(x, P) * PS93(x) + PS67(x, P) * PS92(x)
        - PS72(x, P) * PS89(x) + PS77(x, P) * PS90(x) + PS94(x, P)
  }

  function Next1_6(x: Inputs, P: Table): real {
    PS114(x, P) * PS87(x) + PS116(x, P) * PS91(x) - PS118(x, P) * PS88(x) + PS119(x, P) * PS93(x) + PS120(x,
        P) * PS92(x) - PS121(x, P) * PS89(x) + PS123(x, P) * PS90(x) + PS125(x, P)
  }

  function Next2_6(x: Inputs, P: Table): real {
    PS139(x, P) * PS87(x) + PS141(x, P) * PS91(x) - PS143(x, P) * PS88(x) + PS144(x, P) * PS93(x) + PS145(x,
        P) * PS92(x) - PS146(x, P) * PS89(x) + PS148(x, P) * PS90(x) + PS150(x, P)
  }

  function Next3_6(x: Inputs, P: Table): real {
    PS159(x, P) * PS87(x) + PS161(x, P) * PS91(x) - PS163(x, P) * PS88(x) + PS164(x, P) * PS93(x) + PS165(x,
        P) * PS92(x) - PS166(x, P) * PS89(x) + PS168(x, P) * PS90(x) + PS170(x, P)
  }

  function Next4_6(x: Inputs, P: Table): real {
    -PS171(x) * PS198(x) + PS178(x, P) * PS87(x) - PS180(x, P) * PS197(x) - PS184(x) * PS56(x) * PS88(x) + PS187(x,
        P) * PS90(x) + PS188(x, P) * PS92(x) + PS189(x, P) * PS93(x) - PS191(x, P) * PS89(x) + PS192(x, P) * PS91(x)
        + PS194(x) * PS199(x) + PS200(x, P)
  }

  function Next5_6(x: Inputs, P: Table): real {
    PS190(x) * PS198(x) - PS195(x) * PS197(x) - PS197(x) * PS205(x, P) + PS199(x) * PS206(x, P) + PS207(x,
        P) * PS216(x) + PS208(x, P) * PS217(x) + PS209(x, P) * PS87(x) - PS210(x, P) * PS214(x) + PS211(x,
        P) * PS215(x) - PS212(x) * PS76(x) * PS90(x) + PS218(x, P)
  }

  /** The sum the entry (6, 6) spells out for each attitude state. */
  function Inner6(x: Inputs, v14: real, v13: real, v2: real, v3: real, v0: real, v1: real, v15: real, v6: real): real {
    -PS197(x) * v14 + PS199(x) * v13 - PS214(x) * v2 + PS215(x) * v3 + PS216(x) * v0 + PS217(x) * v1 + PS87(x) * v15 + v6
  }

  function Next6_6(x: Inputs, P: Table): real {
    PS184(x) * Sq(PS88(x)) - PS197(x) * PS220(x, P) + PS199(x) * PS221(x, P) + PS212(x) * Sq(PS90(x))
    - PS214(x) * Inner6(x, P(2, 14), P(2, 13), P(2, 2), P(2, 3), P(0, 2), P(1, 2), P(2, 15), P(2, 6))
    + PS215(x) * Inner6(x, P(3, 14), P(3, 13), P(2, 3), P(3, 3), P(0, 3), P(1, 3), P(3, 15), P(3, 6))
    + PS216(x) * Inner6(x, P(0, 14), P(0, 13), P(0, 2), P(0, 3), P(0, 0), P(0, 1), P(0, 15), P(0, 6))
    + PS217(x) * Inner6(x, P(1, 14), P(1, 13), P(1, 2), P(1, 3), P(0, 1), P(1, 1), P(1, 15), P(1, 6)) + PS219(x, P) * PS87(x) + PS222(x, P) + Sq(PS87(x)) * x.dvzVar
  }

  function Next0_7(x: Inputs, P: Table): real {
    -PS11(x) * P(1, 7) - PS12(x) * P(2, 7) - PS13(x) * P(3, 7) + PS6(x) * P(7, 10) + PS7(x) * P(7, 11) + PS73(x,
        P) * x.dt + PS9(x) * P(7, 12) + P(0, 7)
  }

  function Next1_7(x: Inputs, P: Table): real {
    PS11(x) * P(0, 7) - PS12(x) * P(3, 7) + PS122(x, P) * x.dt + PS13(x) * P(2, 7) - PS34(x) * P(7, 10) - PS7(x) * P(7,
        12) + PS9(x) * P(7, 11) + P(1, 7)
  }

  function Next2_7(x: Inputs, P: Table): real {
    PS11(x) * P(3, 7) + PS12(x) * P(0, 7) - PS13(x) * P(1, 7) + PS147(x, P) * x.dt - PS34(x) * P(7, 11) + PS6(x) * P(7,
        12) - PS9(x) * P(7, 10) + P(2, 7)
  }

  function Next3_7(x: Inputs, P: Table): real {
    -PS11(x) * P(2, 7) + PS12(x) * P(1, 7) + PS13(x) * P(0, 7) + PS167(x, P) * x.dt - PS34(x) * P(7, 12) - PS6(x) * P(7,
        11) + PS7(x) * P(7, 10) + P(3, 7)
  }

  function Next4_7(x: Inputs, P: Table): real {
    -PS171(x) * P(7, 15) + PS172(x) * P(7, 14) + PS173(x) * P(1, 7) + PS174(x) * P(0, 7) + PS175(x) * P(2, 7)
        - PS176(x) * P(3, 7) + PS186(x, P) * x.dt + PS43(x) * P(7, 13) + P(4, 7)
  }

  function Next5_7(x: Inputs, P: Table): real {
    PS190(x) * P(7, 15) - PS193(x) * P(7, 13) + PS201(x) * P(2, 7) - PS202(x) * P(0, 7) + PS203(x) * P(3, 7)
        - PS204(x) * P(1, 7) + PS75(x) * P(7, 14) + P(5, 7) + x.dt * (PS190(x) * P(4, 15) - PS193(x) * P(4, 13)
        + PS201(x) * P(2, 4) - PS202(x) * P(0, 4) + PS203(x) * P(3, 4) - PS204(x) * P(1, 4) + PS75(x) * P(4, 14) + P(4,
        5))
  }

  function Next6_7(x: Inputs, P: Table): real {
    -PS197(x) * P(7, 14) + PS199(x) * P(7, 13) - PS214(x) * P(2, 7) + PS215(x) * P(3, 7) + PS216(x) * P(0, 7)
        + PS217(x) * P(1, 7) + PS87(x) * P(7, 15) + P(6, 7) + x.dt * (-PS197(x) * P(4, 14) + PS199(x) * P(4, 13)
        - PS214(x) * P(2, 4) + PS215(x) * P(3, 4) + PS216(x) * P(0, 4) + PS217(x) * P(1, 4) + PS87(x) * P(4, 15) + P(4,
        6))
  }

  function Next7_7(x: Inputs, P: Table): real {
    P(4, 7) * x.dt + P(7, 7) + x.dt * (P(4, 4) * x.dt + P(4, 7))
  }

  function Next0_8(x: Inputs, P: Table): real {
    -PS11(x) * P(1, 8) - PS12(x) * P(2, 8) - PS13(x) * P(3, 8) + PS6(x) * P(8, 10) + PS7(x) * P(8, 11) + PS86(x,
        P) * x.dt + PS9(x) * P(8, 12) + P(0, 8)
  }

  function Next1_8(x: Inputs, P: Table): real {
    PS11(x) * P(0, 8) - PS12(x) * P(3, 8) + PS124(x, P) * x.dt + PS13(x) * P(2, 8) - PS34(x) * P(8, 10) - PS7(x) * P(8,
        12) + PS9(x) * P(8, 11) + P(1, 8)
  }

  function Next2_8(x: Inputs, P: Table): real {
    PS11(x) * P(3, 8) + PS12(x) * P(0, 8) - PS13(x) * P(1, 8) + PS149(x, P) * x.dt - PS34(x) * P(8, 11) + PS6(x) * P(8,
        12) - PS9(x) * P(8, 10) + P(2, 8)
  }

  function Next3_8(x: Inputs, P: Table): real {
    -PS11(x) * P(2, 8) + PS12(x) * P(1, 8) + PS13(x) * P(0, 8) + PS169(x, P) * x.dt - PS34(x) * P(8, 12) - PS6(x) * P(8,
        11) + PS7(x) * P(8, 10) + P(3, 8)
  }

  function Next4_8(x: Inputs, P: Table): real {
    -PS171(x) * P(8, 15) + PS172(x) * P(8, 14) + PS173(x) * P(1, 8) + PS174(x) * P(0, 8) + PS175(x) * P(2, 8)
        - PS176(x) * P(3, 8) + PS196(x, P) * x.dt + PS43(x) * P(8, 13) + P(4, 8)
  }

  function Next5_8(x: Inputs, P: Table): real {
    PS190(x) * P(8, 15) - PS193(x) * P(8, 13) + PS201(x) * P(2, 8) - PS202(x) * P(0, 8) + PS203(x) * P(3, 8)
        - PS204(x) * P(1, 8) + PS213(x, P) * x.dt + PS75(x) * P(8, 14) + P(5, 8)
  }

  function Next6_8(x: Inputs, P: Table): real {
    -PS197(x) * P(8, 14) + PS199(x) * P(8, 13) - PS214(x) * P(2, 8) + PS215(x) * P(3, 8) + PS216(x) * P(0, 8)
        + PS217(x) * P(1, 8) + PS87(x) * P(8, 15) + P(6, 8) + x.dt * (-PS197(x) * P(5, 14) + PS199(x) * P(5, 13)
        - PS214(x) * P(2, 5) + PS215(x) * P(3, 5) + PS216(x) * P(0, 5) + PS217(x) * P(1, 5) + PS87(x) * P(5, 15) + P(5,
        6))
  }

  function Next7_8(x: Inputs, P: Table): real {
    P(4, 8) * x.dt + P(7, 8) + x.dt * (P(4, 5) * x.dt + P(5, 7))
  }

  function Next8_8(x: Inputs, P: Table): real {
    P(5, 8) * x.dt + P(8, 8) + x.dt * (P(5, 5) * x.dt + P(5, 8))
  }

  function Next0_9(x: Inputs, P: Table): real {
    -PS11(x) * P(1, 9) - PS12(x) * P(2, 9) - PS13(x) * P(3, 9) + PS6(x) * P(9, 10) + PS7(x) * P(9, 11) + PS9(x) * P(9,
        12) + PS94(x, P) * x.dt + P(0, 9)
  }

  function Next1_9(x: Inputs, P: Table): real {
    PS11(x) * P(0, 9) - PS12(x) * P(3, 9) + PS125(x, P) * x.dt + PS13(x) * P(2, 9) - PS34(x) * P(9, 10) - PS7(x) * P(9,
        12) + PS9(x) * P(9, 11) + P(1, 9)
  }

  function Next2_9(x: Inputs, P: Table): real {
    PS11(x) * P(3, 9) + PS12(x) * P(0, 9) - PS13(x) * P(1, 9) + PS150(x, P) * x.dt - PS34(x) * P(9, 11) + PS6(x) * P(9,
        12) - PS9(x) * P(9, 10) + P(2, 9)
  }

  function Next3_9(x: Inputs, P: Table): real {
    -PS11(x) * P(2, 9) + PS12(x) * P(1, 9) + PS13(x) * P(0, 9) + PS170(x, P) * x.dt - PS34(x) * P(9, 12) - PS6(x) * P(9,
        11) + PS7(x) * P(9, 10) + P(3, 9)
  }

  function Next4_9(x: Inputs, P: Table): real {
    -PS171(x) * P(9, 15) + PS172(x) * P(9, 14) + PS173(x) * P(1, 9) + PS174(x) * P(0, 9) + PS175(x) * P(2, 9)
        - PS176(x) * P(3, 9) + PS200(x, P) * x.dt + PS43(x) * P(9, 13) + P(4, 9)
  }

  function Next5_9(x: Inputs, P: Table): real {
    PS190(x) * P(9, 15) - PS193(x) * P(9, 13) + PS201(x) * P(2, 9) - PS202(x) * P(0, 9) + PS203(x) * P(3, 9)
        - PS204(x) * P(1, 9) + PS218(x, P) * x.dt + PS75(x) * P(9, 14) + P(5, 9)
  }

  function Next6_9(x: Inputs, P: Table): real {
    -PS197(x) * P(9, 14) + PS199(x) * P(9, 13) - PS214(x) * P(2, 9) + PS215(x) * P(3, 9) + PS216(x) * P(0, 9)
        + PS217(x) * P(1, 9) + PS222(x, P) * x.dt + PS87(x) * P(9, 15) + P(6, 9)
  }

  function Next7_9(x: Inputs, P: Table): real {
    P(4, 9) * x.dt + P(7, 9) + x.dt * (P(4, 6) * x.dt + P(6, 7))
  }

  function Next8_9(x: Inputs, P: Table): real {
    P(5, 9) * x.dt + P(8, 9) + x.dt * (P(5, 6) * x.dt + P(6, 8))
  }

  function Next9_9(x: Inputs, P: Table): real {
    P(6, 9) * x.dt + P(9, 9) + x.dt * (P(6, 6) * x.dt + P(6, 9))
  }
}
