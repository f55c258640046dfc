/**
 * The two example lines of the third solver (src/bin/03.rs) and a few
 * corner inputs, evaluated through the scanner.
 *
 * The verifier cannot unfold a scan over a 70-character string in one
 * proof: each position costs several recursive unfoldings of `ScanFrom`,
 * `Match` and `Occurs`, and together they exceed the resource bound. So
 * each example line is spelled out character by character once (the
 * `FirstChars`/`SecondChars` predicates), and the scan is split into
 * chunks of about a dozen positions (`FirstFrom*`/`SecondFrom*`). Each chunk
 * lemma states the matches from its first position on, and proves it from
 * the next chunk's lemma, one asserted `ScanFrom` step per position.
 */
module MulFixtures {
  import opened Wrappers
  import opened MulInstructions
  import opened MulScanner

  /** The first example line, written in pieces of eight characters. */
  const TEST: string := "xmul(2,4"
    + ")%&mul[3"
    + ",7]!@^do"
    + "_not_mul"
    + "(5,5)+mu"
    + "l(32,64]"
    + "then(mul"
    + "(11,8)mu"
    + "l(8,5))"

  /** The second example line. */
  const TEST2: string := "xmul(2,4"
    + ")&mul[3,"
    + "7]!^don'"
    + "t()_mul("
    + "5,5)+mul"
    + "(32,64]("
    + "mul(11,8"
    + ")undo()?"
    + "mul(8,5)"
    + ")"

  /** The characters of `TEST`, one by one. */
  predicate FirstChars(s: string)
  {
    |s| == 71
    && s[0] == 'x' && s[1] == 'm' && s[2] == 'u' && s[3] == 'l' && s[4] == '(' && s[5] == '2' && s[6] == ',' && s[7] == '4'
    && s[8] == ')' && s[9] == '%' && s[10] == '&' && s[11] == 'm' && s[12] == 'u' && s[13] == 'l' && s[14] == '[' && s[15] == '3'
    && s[16] == ',' && s[17] == '7' && s[18] == ']' && s[19] == '!' && s[20] == '@' && s[21] == '^' && s[22] == 'd' && s[23] == 'o'
    && s[24] == '_' && s[25] == 'n' && s[26] == 'o' && s[27] == 't' && s[28] == '_' && s[29] == 'm' && s[30] == 'u' && s[31] == 'l'
    && s[32] == '(' && s[33] == '5' && s[34] == ',' && s[35] == '5' && s[36] == ')' && s[37] == '+' && s[38] == 'm' && s[39] == 'u'
    && s[40] == 'l' && s[41] == '(' && s[42] == '3' && s[43] == '2' && s[44] == ',' && s[45] == '6' && s[46] == '4' && s[47] == ']'
    && s[48] == 't' && s[49] == 'h' && s[50] == 'e' && s[51] == 'n' && s[52] == '(' && s[53] == 'm' && s[54] == 'u' && s[55] == 'l'
    && s[56] == '(' && s[57] == '1' && s[58] == '1' && s[59] == ',' && s[60] == '8' && s[61] == ')' && s[62] == 'm' && s[63] == 'u'
    && s[64] == 'l' && s[65] == '(' && s[66] == '8' && s[67] == ',' && s[68] == '5' && s[69] == ')' && s[70] == ')'
  }

  lemma FirstCharsFrom0()
    ensures TEST[0] == 'x' && TEST[1] == 'm' && TEST[2] == 'u' && TEST[3] == 'l' && TEST[4] == '(' && TEST[5] == '2' && TEST[6] == ',' && TEST[7] == '4' && TEST[8] == ')' && TEST[9] == '%' && TEST[10] == '&' && TEST[11] == 'm'
  {
  }

  lemma FirstCharsFrom12()
    ensures TEST[12] == 'u' && TEST[13] == 'l' && TEST[14] == '[' && TEST[15] == '3' && TEST[16] == ',' && TEST[17] == '7' && TEST[18] == ']' && TEST[19] == '!' && TEST[20] == '@' && TEST[21] == '^' && TEST[22] == 'd' && TEST[23] == 'o'
  {
  }

  lemma FirstCharsFrom24()
    ensures TEST[24] == '_' && TEST[25] == 'n' && TEST[26] == 'o' && TEST[27] == 't' && TEST[28] == '_' && TEST[29] == 'm' && TEST[30] == 'u' && TEST[31] == 'l' && TEST[32] == '(' && TEST[33] == '5' && TEST[34] == ',' && TEST[35] == '5'
  {
  }

  lemma FirstCharsFrom36()
    ensures TEST[36] == ')' && TEST[37] == '+' && TEST[38] == 'm' && TEST[39] == 'u' && TEST[40] == 'l' && TEST[41] == '(' && TEST[42] == '3' && TEST[43] == '2' && TEST[44] == ',' && TEST[45] == '6' && TEST[46] == '4' && TEST[47] == ']'
  {
  }

  lemma FirstCharsFrom48()
    ensures TEST[48] == 't' && TEST[49] == 'h' && TEST[50] == 'e' && TEST[51] == 'n' && TEST[52] == '(' && TEST[53] == 'm' && TEST[54] == 'u' && TEST[55] == 'l' && TEST[56] == '(' && TEST[57] == '1' && TEST[58] == '1' && TEST[59] == ','
  {
  }

  lemma FirstCharsFrom60()
    ensures TEST[60] == '8' && TEST[61] == ')' && TEST[62] == 'm' && TEST[63] == 'u' && TEST[64] == 'l' && TEST[65] == '(' && TEST[66] == '8' && TEST[67] == ',' && TEST[68] == '5' && TEST[69] == ')' && TEST[70] == ')'
  {
  }

  lemma FirstSpelled()
    ensures FirstChars(TEST)
  {
    FirstCharsFrom0();
    FirstCharsFrom12();
    FirstCharsFrom24();
    FirstCharsFrom36();
    FirstCharsFrom48();
    FirstCharsFrom60();
  }

  lemma FirstFrom62(s: string)
    requires FirstChars(s)
    ensures ScanFrom(s, 62, false) == [Mul(8, 5)]
  {
    assert ScanFrom(s, 71, false) == [];
    assert ScanFrom(s, 70, false) == [];
    assert ScanFrom(s, 69, false) == [];
    assert ScanFrom(s, 68, false) == [];
    assert ScanFrom(s, 67, false) == [];
    assert ScanFrom(s, 66, false) == [];
    assert ScanFrom(s, 65, false) == [];
    assert ScanFrom(s, 64, false) == [];
    assert ScanFrom(s, 63, false) == [];
    assert OccursFrom(s, 62, "mul(", 3);
    assert OccursFrom(s, 62, "mul(", 2);
    assert OccursFrom(s, 62, "mul(", 1);
    assert Occurs(s, 62, "mul(");
    assert DigitRun(s, 67, 3) == 0;
    assert DigitRun(s, 66, 4) == 1;
    assert DigitsValue(s, 66, 1) == 8;
    assert ParseOperand(s, 66, ',') == Some((8, 68));
    assert DigitRun(s, 69, 3) == 0;
    assert DigitRun(s, 68, 4) == 1;
    assert DigitsValue(s, 68, 1) == 5;
    assert ParseOperand(s, 68, ')') == Some((5, 70));
    assert ScanFrom(s, 62, false) == [Mul(8, 5)];
  }

  lemma FirstFrom49(s: string)
    requires FirstChars(s)
    ensures ScanFrom(s, 49, false) == [Mul(11, 8), Mul(8, 5)]
  {
    FirstFrom62(s);
    assert ScanFrom(s, 61, false) == [Mul(8, 5)];
    assert ScanFrom(s, 60, false) == [Mul(8, 5)];
    assert ScanFrom(s, 59, false) == [Mul(8, 5)];
    assert ScanFrom(s, 58, false) == [Mul(8, 5)];
    assert ScanFrom(s, 57, false) == [Mul(8, 5)];
    assert ScanFrom(s, 56, false) == [Mul(8, 5)];
    assert ScanFrom(s, 55, false) == [Mul(8, 5)];
    assert ScanFrom(s, 54, false) == [Mul(8, 5)];
    assert OccursFrom(s, 53, "mul(", 3);
    assert OccursFrom(s, 53, "mul(", 2);
    assert OccursFrom(s, 53, "mul(", 1);
    assert Occurs(s, 53, "mul(");
    assert DigitRun(s, 59, 2) == 0;
    assert DigitRun(s, 58, 3) == 1;
    assert DigitRun(s, 57, 4) == 2;
    assert DigitsValue(s, 57, 1) == 1;
    assert DigitsValue(s, 57, 2) == 11;
    assert ParseOperand(s, 57, ',') == Some((11, 60));
    assert DigitRun(s, 61, 3) == 0;
    assert DigitRun(s, 60, 4) == 1;
    assert DigitsValue(s, 60, 1) == 8;
    assert ParseOperand(s, 60, ')') == Some((8, 62));
    assert ScanFrom(s, 53, false) == [Mul(11, 8), Mul(8, 5)];
    assert ScanFrom(s, 52, false) == [Mul(11, 8), Mul(8, 5)];
    assert ScanFrom(s, 51, false) == [Mul(11, 8), Mul(8, 5)];
    assert ScanFrom(s, 50, false) == [Mul(11, 8), Mul(8, 5)];
    assert ScanFrom(s, 49, false) == [Mul(11, 8), Mul(8, 5)];
  }

  lemma FirstFrom37(s: string)
    requires FirstChars(s)
    ensures ScanFrom(s, 37, false) == [Mul(11, 8), Mul(8, 5)]
  {
    FirstFrom49(s);
    assert ScanFrom(s, 48, false) == [Mul(11, 8), Mul(8, 5)];
    assert ScanFrom(s, 47, false) == [Mul(11, 8), Mul(8, 5)];
    assert ScanFrom(s, 46, false) == [Mul(11, 8), Mul(8, 5)];
    assert ScanFrom(s, 45, false) == [Mul(11, 8), Mul(8, 5)];
    assert ScanFrom(s, 44, false) == [Mul(11, 8), Mul(8, 5)];
    assert ScanFrom(s, 43, false) == [Mul(11, 8), Mul(8, 5)];
    assert ScanFrom(s, 42, false) == [Mul(11, 8), Mul(8, 5)];
    assert ScanFrom(s, 41, false) == [Mul(11, 8), Mul(8, 5)];
    assert ScanFrom(s, 40, false) == [Mul(11, 8), Mul(8, 5)];
    assert ScanFrom(s, 39, false) == [Mul(11, 8), Mul(8, 5)];
    assert OccursFrom(s, 38, "mul(", 3);
    assert OccursFrom(s, 38, "mul(", 2);
    assert OccursFrom(s, 38, "mul(", 1);
    assert Occurs(s, 38, "mul(");
    assert DigitRun(s, 44, 2) == 0;
    assert DigitRun(s, 43, 3) == 1;
    assert DigitRun(s, 42, 4) == 2;
    assert DigitsValue(s, 42, 1) == 3;
    assert DigitsValue(s, 42, 2) == 32;
    assert ParseOperand(s, 42, ',') == Some((32, 45));
    assert DigitRun(s, 47, 2) == 0;
    assert DigitRun(s, 46, 3) == 1;
    assert DigitRun(s, 45, 4) == 2;
    assert DigitsValue(s, 45, 1) == 6;
    assert DigitsValue(s, 45, 2) == 64;
    assert ParseOperand(s, 45, ')') == None;
    assert ScanFrom(s, 38, false) == [Mul(11, 8), Mul(8, 5)];
    assert ScanFrom(s, 37, false) == [Mul(11, 8), Mul(8, 5)];
  }

  lemma FirstFrom24(s: string)
    requires FirstChars(s)
    ensures ScanFrom(s, 24, false) == [Mul(5, 5), Mul(11, 8), Mul(8, 5)]
  {
    FirstFrom37(s);
    assert ScanFrom(s, 36, false) == [Mul(11, 8), Mul(8, 5)];
    assert ScanFrom(s, 35, false) == [Mul(11, 8), Mul(8, 5)];
    assert ScanFrom(s, 34, false) == [Mul(11, 8), Mul(8, 5)];
    assert ScanFrom(s, 33, false) == [Mul(11, 8), Mul(8, 5)];
    assert ScanFrom(s, 32, false) == [Mul(11, 8), Mul(8, 5)];
    assert ScanFrom(s, 31, false) == [Mul(11, 8), Mul(8, 5)];
    assert ScanFrom(s, 30, false) == [Mul(11, 8), Mul(8, 5)];
    assert OccursFrom(s, 29, "mul(", 3);
    assert OccursFrom(s, 29, "mul(", 2);
    assert OccursFrom(s, 29, "mul(", 1);
    assert Occurs(s, 29, "mul(");
    assert DigitRun(s, 34, 3) == 0;
    assert DigitRun(s, 33, 4) == 1;
    assert DigitsValue(s, 33, 1) == 5;
    assert ParseOperand(s, 33, ',') == Some((5, 35));
    assert DigitRun(s, 36, 3) == 0;
    assert DigitRun(s, 35, 4) == 1;
    assert DigitsValue(s, 35, 1) == 5;
    assert ParseOperand(s, 35, ')') == Some((5, 37));
    assert ScanFrom(s, 29, false) == [Mul(5, 5), Mul(11, 8), Mul(8, 5)];
    assert ScanFrom(s, 28, false) == [Mul(5, 5), Mul(11, 8), Mul(8, 5)];
    assert ScanFrom(s, 27, false) == [Mul(5, 5), Mul(11, 8), Mul(8, 5)];
    assert ScanFrom(s, 26, false) == [Mul(5, 5), Mul(11, 8), Mul(8, 5)];
    assert ScanFrom(s, 25, false) == [Mul(5, 5), Mul(11, 8), Mul(8, 5)];
    assert ScanFrom(s, 24, false) == [Mul(5, 5), Mul(11, 8), Mul(8, 5)];
  }

  lemma FirstFrom12(s: string)
    requires FirstChars(s)
    ensures ScanFrom(s, 12, false) == [Mul(5, 5), Mul(11, 8), Mul(8, 5)]
  {
    FirstFrom24(s);
    assert ScanFrom(s, 23, false) == [Mul(5, 5), Mul(11, 8), Mul(8, 5)];
    assert ScanFrom(s, 22, false) == [Mul(5, 5), Mul(11, 8), Mul(8, 5)];
    assert ScanFrom(s, 21, false) == [Mul(5, 5), Mul(11, 8), Mul(8, 5)];
    assert ScanFrom(s, 20, false) == [Mul(5, 5), Mul(11, 8), Mul(8, 5)];
    assert ScanFrom(s, 19, false) == [Mul(5, 5), Mul(11, 8), Mul(8, 5)];
    assert ScanFrom(s, 18, false) == [Mul(5, 5), Mul(11, 8), Mul(8, 5)];
    assert ScanFrom(s, 17, false) == [Mul(5, 5), Mul(11, 8), Mul(8, 5)];
    assert ScanFrom(s, 16, false) == [Mul(5, 5), Mul(11, 8), Mul(8, 5)];
    assert ScanFrom(s, 15, false) == [Mul(5, 5), Mul(11, 8), Mul(8, 5)];
    assert ScanFrom(s, 14, false) == [Mul(5, 5), Mul(11, 8), Mul(8, 5)];
    assert ScanFrom(s, 13, false) == [Mul(5, 5), Mul(11, 8), Mul(8, 5)];
    assert ScanFrom(s, 12, false) == [Mul(5, 5), Mul(11, 8), Mul(8, 5)];
  }

  lemma FirstFrom0(s: string)
    requires FirstChars(s)
    ensures ScanFrom(s, 0, false) == [Mul(2, 4), Mul(5, 5), Mul(11, 8), Mul(8, 5)]
  {
    FirstFrom12(s);
    NotOccurs(s, 11, "mul(", 3);
    assert ScanFrom(s, 11, false) == [Mul(5, 5), Mul(11, 8), Mul(8, 5)];
    assert ScanFrom(s, 10, false) == [Mul(5, 5), Mul(11, 8), Mul(8, 5)];
    assert ScanFrom(s, 9, false) == [Mul(5, 5), Mul(11, 8), Mul(8, 5)];
    assert ScanFrom(s, 8, false) == [Mul(5, 5), Mul(11, 8), Mul(8, 5)];
    assert ScanFrom(s, 7, false) == [Mul(5, 5), Mul(11, 8), Mul(8, 5)];
    assert ScanFrom(s, 6, false) == [Mul(5, 5), Mul(11, 8), Mul(8, 5)];
    assert ScanFrom(s, 5, false) == [Mul(5, 5), Mul(11, 8), Mul(8, 5)];
    assert ScanFrom(s, 4, false) == [Mul(5, 5), Mul(11, 8), Mul(8, 5)];
    assert ScanFrom(s, 3, false) == [Mul(5, 5), Mul(11, 8), Mul(8, 5)];
    assert ScanFrom(s, 2, false) == [Mul(5, 5), Mul(11, 8), Mul(8, 5)];
    assert OccursFrom(s, 1, "mul(", 3);
    assert OccursFrom(s, 1, "mul(", 2);
    assert OccursFrom(s, 1, "mul(", 1);
    assert Occurs(s, 1, "mul(");
    assert DigitRun(s, 6, 3) == 0;
    assert DigitRun(s, 5, 4) == 1;
    assert DigitsValue(s, 5, 1) == 2;
    assert ParseOperand(s, 5, ',') == Some((2, 7));
    assert DigitRun(s, 8, 3) == 0;
    assert DigitRun(s, 7, 4) == 1;
    assert DigitsValue(s, 7, 1) == 4;
    assert ParseOperand(s, 7, ')') == Some((4, 9));
    assert ScanFrom(s, 1, false) == [Mul(2, 4), Mul(5, 5), Mul(11, 8), Mul(8, 5)];
    assert ScanFrom(s, 0, false) == [Mul(2, 4), Mul(5, 5), Mul(11, 8), Mul(8, 5)];
  }

  /** The characters of `TEST2`, one by one. */
  predicate SecondChars(s: string)
  {
    |s| == 73
    && s[0] == 'x' && s[1] == 'm' && s[2] == 'u' && s[3] == 'l' && s[4] == '(' && s[5] == '2' && s[6] == ',' && s[7] == '4'
    && s[8] == ')' && s[9] == '&' && s[10] == 'm' && s[11] == 'u' && s[12] == 'l' && s[13] == '[' && s[14] == '3' && s[15] == ','
    && s[16] == '7' && s[17] == ']' && s[18] == '!' && s[19] == '^' && s[20] == 'd' && s[21] == 'o' && s[22] == 'n' && s[23] == '\''
    && s[24] == 't' && s[25] == '(' && s[26] == ')' && s[27] == '_' && s[28] == 'm' && s[29] == 'u' && s[30] == 'l' && s[31] == '('
    && s[32] == '5' && s[33] == ',' && s[34] == '5' && s[35] == ')' && s[36] == '+' && s[37] == 'm' && s[38] == 'u' && s[39] == 'l'
    && s[40] == '(' && s[41] == '3' && s[42] == '2' && s[43] == ',' && s[44] == '6' && s[45] == '4' && s[46] == ']' && s[47] == '('
    && s[48] == 'm' && s[49] == 'u' && s[50] == 'l' && s[51] == '(' && s[52] == '1' && s[53] == '1' && s[54] == ',' && s[55] == '8'
    && s[56] == ')' && s[57] == 'u' && s[58] == 'n' && s[59] == 'd' && s[60] == 'o' && s[61] == '(' && s[62] == ')' && s[63] == '?'
    && s[64] == 'm' && s[65] == 'u' && s[66] == 'l' && s[67] == '(' && s[68] == '8' && s[69] == ',' && s[70] == '5' && s[71] == ')'
    && s[72] == ')'
  }

  lemma SecondCharsFrom0()
    ensures TEST2[0] == 'x' && TEST2[1] == 'm' && TEST2[2] == 'u' && TEST2[3] == 'l' && TEST2[4] == '(' && TEST2[5] == '2' && TEST2[6] == ',' && TEST2[7] == '4' && TEST2[8] == ')' && TEST2[9] == '&' && TEST2[10] == 'm' && TEST2[11] == 'u'
  {
  }

  lemma SecondCharsFrom12()
    ensures TEST2[12] == 'l' && TEST2[13] == '[' && TEST2[14] == '3' && TEST2[15] == ',' && TEST2[16] == '7' && TEST2[17] == ']' && TEST2[18] == '!' && TEST2[19] == '^' && TEST2[20] == 'd' && TEST2[21] == 'o' && TEST2[22] == 'n' && TEST2[23] == '\''
  {
  }

  lemma SecondCharsFrom24()
    ensures TEST2[24] == 't' && TEST2[25] == '(' && TEST2[26] == ')' && TEST2[27] == '_' && TEST2[28] == 'm' && TEST2[29] == 'u' && TEST2[30] == 'l' && TEST2[31] == '(' && TEST2[32] == '5' && TEST2[33] == ',' && TEST2[34] == '5' && TEST2[35] == ')'
  {
  }

  lemma SecondCharsFrom36()
    ensures TEST2[36] == '+' && TEST2[37] == 'm' && TEST2[38] == 'u' && TEST2[39] == 'l' && TEST2[40] == '(' && TEST2[41] == '3' && TEST2[42] == '2' && TEST2[43] == ',' && TEST2[44] == '6' && TEST2[45] == '4' && TEST2[46] == ']' && TEST2[47] == '('
  {
  }

  lemma SecondCharsFrom48()
    ensures TEST2[48] == 'm' && TEST2[49] == 'u' && TEST2[50] == 'l' && TEST2[51] == '(' && TEST2[52] == '1' && TEST2[53] == '1' && TEST2[54] == ',' && TEST2[55] == '8' && TEST2[56] == ')' && TEST2[57] == 'u' && TEST2[58] == 'n' && TEST2[59] == 'd'
  {
  }

  lemma SecondCharsFrom60()
    ensures TEST2[60] == 'o' && TEST2[61] == '(' && TEST2[62] == ')' && TEST2[63] == '?' && TEST2[64] == 'm' && TEST2[65] == 'u' && TEST2[66] == 'l' && TEST2[67] == '(' && TEST2[68] == '8' && TEST2[69] == ',' && TEST2[70] == '5' && TEST2[71] == ')'
  {
  }

  lemma SecondCharsFrom72()
    ensures TEST2[72] == ')'
  {
  }

  lemma SecondSpelled()
    ensures SecondChars(TEST2)
  {
    SecondCharsFrom0();
    SecondCharsFrom12();
    SecondCharsFrom24();
    SecondCharsFrom36();
    SecondCharsFrom48();
    SecondCharsFrom60();
    SecondCharsFrom72();
  }

  lemma SecondFrom72(s: string)
    requires SecondChars(s)
    ensures ScanFrom(s, 72, true) == []
  {
    assert ScanFrom(s, 73, true) == [];
    assert ScanFrom(s, 72, true) == [];
  }

  lemma SecondFrom57(s: string)
    requires SecondChars(s)
    ensures ScanFrom(s, 57, true) == [Do, Mul(8, 5)]
  {
    SecondFrom72(s);
    assert ScanFrom(s, 71, true) == [];
    assert ScanFrom(s, 70, true) == [];
    assert ScanFrom(s, 69, true) == [];
    assert ScanFrom(s, 68, true) == [];
    assert ScanFrom(s, 67, true) == [];
    assert ScanFrom(s, 66, true) == [];
    assert ScanFrom(s, 65, true) == [];
    assert OccursFrom(s, 64, "mul(", 3);
    assert OccursFrom(s, 64, "mul(", 2);
    assert OccursFrom(s, 64, "mul(", 1);
    assert Occurs(s, 64, "mul(");
    assert DigitRun(s, 69, 3) == 0;
    assert DigitRun(s, 68, 4) == 1;
    assert DigitsValue(s, 68, 1) == 8;
    assert ParseOperand(s, 68, ',') == Some((8, 70));
    assert DigitRun(s, 71, 3) == 0;
    assert DigitRun(s, 70, 4) == 1;
    assert DigitsValue(s, 70, 1) == 5;
    assert ParseOperand(s, 70, ')') == Some((5, 72));
    assert ScanFrom(s, 64, true) == [Mul(8, 5)];
    assert ScanFrom(s, 63, true) == [Mul(8, 5)];
    assert ScanFrom(s, 62, true) == [Mul(8, 5)];
    assert ScanFrom(s, 61, true) == [Mul(8, 5)];
    assert ScanFrom(s, 60, true) == [Mul(8, 5)];
    assert OccursFrom(s, 59, "do()", 3);
    assert OccursFrom(s, 59, "do()", 2);
    assert OccursFrom(s, 59, "do()", 1);
    assert Occurs(s, 59, "do()");
    NotOccurs(s, 59, "don't()", 2);
    assert ScanFrom(s, 59, true) == [Do, Mul(8, 5)];
    assert ScanFrom(s, 58, true) == [Do, Mul(8, 5)];
    assert ScanFrom(s, 57, true) == [Do, Mul(8, 5)];
  }

  lemma SecondFrom39(s: string)
    requires SecondChars(s)
    ensures ScanFrom(s, 39, true) == [Mul(11, 8), Do, Mul(8, 5)]
  {
    SecondFrom57(s);
    assert ScanFrom(s, 56, true) == [Do, Mul(8, 5)];
    assert ScanFrom(s, 55, true) == [Do, Mul(8, 5)];
    assert ScanFrom(s, 54, true) == [Do, Mul(8, 5)];
    assert ScanFrom(s, 53, true) == [Do, Mul(8, 5)];
    assert ScanFrom(s, 52, true) == [Do, Mul(8, 5)];
    assert ScanFrom(s, 51, true) == [Do, Mul(8, 5)];
    assert ScanFrom(s, 50, true) == [Do, Mul(8, 5)];
    assert ScanFrom(s, 49, true) == [Do, Mul(8, 5)];
    assert OccursFrom(s, 48, "mul(", 3);
    assert OccursFrom(s, 48, "mul(", 2);
    assert OccursFrom(s, 48, "mul(", 1);
    assert Occurs(s, 48, "mul(");
    assert DigitRun(s, 54, 2) == 0;
    assert DigitRun(s, 53, 3) == 1;
    assert DigitRun(s, 52, 4) == 2;
    assert DigitsValue(s, 52, 1) == 1;
    assert DigitsValue(s, 52, 2) == 11;
    assert ParseOperand(s, 52, ',') == Some((11, 55));
    assert DigitRun(s, 56, 3) == 0;
    assert DigitRun(s, 55, 4) == 1;
    assert DigitsValue(s, 55, 1) == 8;
    assert ParseOperand(s, 55, ')') == Some((8, 57));
    assert ScanFrom(s, 48, true) == [Mul(11, 8), Do, Mul(8, 5)];
    assert ScanFrom(s, 47, true) == [Mul(11, 8), Do, Mul(8, 5)];
    assert ScanFrom(s, 46, true) == [Mul(11, 8), Do, Mul(8, 5)];
    assert ScanFrom(s, 45, true) == [Mul(11, 8), Do, Mul(8, 5)];
    assert ScanFrom(s, 44, true) == [Mul(11, 8), Do, Mul(8, 5)];
    assert ScanFrom(s, 43, true) == [Mul(11, 8), Do, Mul(8, 5)];
    assert ScanFrom(s, 42, true) == [Mul(11, 8), Do, Mul(8, 5)];
    assert ScanFrom(s, 41, true) == [Mul(11, 8), Do, Mul(8, 5)];
    assert ScanFrom(s, 40, true) == [Mul(11, 8), Do, Mul(8, 5)];
    assert ScanFrom(s, 39, true) == [Mul(11, 8), Do, Mul(8, 5)];
  }

  lemma SecondFrom27(s: string)
    requires SecondChars(s)
    ensures ScanFrom(s, 27, true) == [Mul(5, 5), Mul(11, 8), Do, Mul(8, 5)]
  {
    SecondFrom39(s);
    assert ScanFrom(s, 38, true) == [Mul(11, 8), Do, Mul(8, 5)];
    assert OccursFrom(s, 37, "mul(", 3);
    assert OccursFrom(s, 37, "mul(", 2);
    assert OccursFrom(s, 37, "mul(", 1);
    assert Occurs(s, 37, "mul(");
    assert DigitRun(s, 43, 2) == 0;
    assert DigitRun(s, 42, 3) == 1;
    assert DigitRun(s, 41, 4) == 2;
    assert DigitsValue(s, 41, 1) == 3;
    assert DigitsValue(s, 41, 2) == 32;
    assert ParseOperand(s, 41, ',') == Some((32, 44));
    assert DigitRun(s, 46, 2) == 0;
    assert DigitRun(s, 45, 3) == 1;
    assert DigitRun(s, 44, 4) == 2;
    assert DigitsValue(s, 44, 1) == 6;
    assert DigitsValue(s, 44, 2) == 64;
    assert ParseOperand(s, 44, ')') == None;
    assert ScanFrom(s, 37, true) == [Mul(11, 8), Do, Mul(8, 5)];
    assert ScanFrom(s, 36, true) == [Mul(11, 8), Do, Mul(8, 5)];
    assert ScanFrom(s, 35, true) == [Mul(11, 8), Do, Mul(8, 5)];
    assert ScanFrom(s, 34, true) == [Mul(11, 8), Do, Mul(8, 5)];
    assert ScanFrom(s, 33, true) == [Mul(11, 8), Do, Mul(8, 5)];
    assert ScanFrom(s, 32, true) == [Mul(11, 8), Do, Mul(8, 5)];
    assert ScanFrom(s, 31, true) == [Mul(11, 8), Do, Mul(8, 5)];
    assert ScanFrom(s, 30, true) == [Mul(11, 8), Do, Mul(8, 5)];
    assert ScanFrom(s, 29, true) == [Mul(11, 8), Do, Mul(8, 5)];
    assert OccursFrom(s, 28, "mul(", 3);
    assert OccursFrom(s, 28, "mul(", 2);
    assert OccursFrom(s, 28, "mul(", 1);
    assert Occurs(s, 28, "mul(");
    assert DigitRun(s, 33, 3) == 0;
    assert DigitRun(s, 32, 4) == 1;
    assert DigitsValue(s, 32, 1) == 5;
    assert ParseOperand(s, 32, ',') == Some((5, 34));
    assert DigitRun(s, 35, 3) == 0;
    assert DigitRun(s, 34, 4) == 1;
    assert DigitsValue(s, 34, 1) == 5;
    assert ParseOperand(s, 34, ')') == Some((5, 36));
    assert ScanFrom(s, 28, true) == [Mul(5, 5), Mul(11, 8), Do, Mul(8, 5)];
    assert ScanFrom(s, 27, true) == [Mul(5, 5), Mul(11, 8), Do, Mul(8, 5)];
  }

  lemma SecondFrom12(s: string)
    requires SecondChars(s)
    ensures ScanFrom(s, 12, true) == [Dont, Mul(5, 5), Mul(11, 8), Do, Mul(8, 5)]
  {
    SecondFrom27(s);
    assert ScanFrom(s, 26, true) == [Mul(5, 5), Mul(11, 8), Do, Mul(8, 5)];
    assert ScanFrom(s, 25, true) == [Mul(5, 5), Mul(11, 8), Do, Mul(8, 5)];
    assert ScanFrom(s, 24, true) == [Mul(5, 5), Mul(11, 8), Do, Mul(8, 5)];
    assert ScanFrom(s, 23, true) == [Mul(5, 5), Mul(11, 8), Do, Mul(8, 5)];
    assert ScanFrom(s, 22, true) == [Mul(5, 5), Mul(11, 8), Do, Mul(8, 5)];
    assert ScanFrom(s, 21, true) == [Mul(5, 5), Mul(11, 8), Do, Mul(8, 5)];
    NotOccurs(s, 20, "do()", 2);
    assert OccursFrom(s, 20, "don't()", 6);
    assert OccursFrom(s, 20, "don't()", 5);
    assert OccursFrom(s, 20, "don't()", 4);
    assert OccursFrom(s, 20, "don't()", 3);
    assert OccursFrom(s, 20, "don't()", 2);
    assert OccursFrom(s, 20, "don't()", 1);
    assert Occurs(s, 20, "don't()");
    assert ScanFrom(s, 20, true) == [Dont, Mul(5, 5), Mul(11, 8), Do, Mul(8, 5)];
    assert ScanFrom(s, 19, true) == [Dont, Mul(5, 5), Mul(11, 8), Do, Mul(8, 5)];
    assert ScanFrom(s, 18, true) == [Dont, Mul(5, 5), Mul(11, 8), Do, Mul(8, 5)];
    assert ScanFrom(s, 17, true) == [Dont, Mul(5, 5), Mul(11, 8), Do, Mul(8, 5)];
    assert ScanFrom(s, 16, true) == [Dont, Mul(5, 5), Mul(11, 8), Do, Mul(8, 5)];
    assert ScanFrom(s, 15, true) == [Dont, Mul(5, 5), Mul(11, 8), Do, Mul(8, 5)];
    assert ScanFrom(s, 14, true) == [Dont, Mul(5, 5), Mul(11, 8), Do, Mul(8, 5)];
    assert ScanFrom(s, 13, true) == [Dont, Mul(5, 5), Mul(11, 8), Do, Mul(8, 5)];
    assert ScanFrom(s, 12, true) == [Dont, Mul(5, 5), Mul(11, 8), Do, Mul(8, 5)];
  }

  lemma SecondFrom0(s: string)
    requires SecondChars(s)
    ensures ScanFrom(s, 0, true) == [Mul(2, 4), Dont, Mul(5, 5), Mul(11, 8), Do, Mul(8, 5)]
  {
    SecondFrom12(s);
    assert ScanFrom(s, 11, true) == [Dont, Mul(5, 5), Mul(11, 8), Do, Mul(8, 5)];
    NotOccurs(s, 10, "mul(", 3);
    assert ScanFrom(s, 10, true) == [Dont, Mul(5, 5), Mul(11, 8), Do, Mul(8, 5)];
    assert ScanFrom(s, 9, true) == [Dont, Mul(5, 5), Mul(11, 8), Do, Mul(8, 5)];
    assert ScanFrom(s, 8, true) == [Dont, Mul(5, 5), Mul(11, 8), Do, Mul(8, 5)];
    assert ScanFrom(s, 7, true) == [Dont, Mul(5, 5), Mul(11, 8), Do, Mul(8, 5)];
    assert ScanFrom(s, 6, true) == [Dont, Mul(5, 5), Mul(11, 8), Do, Mul(8, 5)];
    assert ScanFrom(s, 5, true) == [Dont, Mul(5, 5), Mul(11, 8), Do, Mul(8, 5)];
    assert ScanFrom(s, 4, true) == [Dont, Mul(5, 5), Mul(11, 8), Do, Mul(8, 5)];
    assert ScanFrom(s, 3, true) == [Dont, Mul(5, 5), Mul(11, 8), Do, Mul(8, 5)];
    assert ScanFrom(s, 2, true) == [Dont, Mul(5, 5), Mul(11, 8), Do, Mul(8, 5)];
    assert OccursFrom(s, 1, "mul(", 3);
    assert OccursFrom(s, 1, "mul(", 2);
    assert OccursFrom(s, 1, "mul(", 1);
    assert Occurs(s, 1, "mul(");
    assert DigitRun(s, 6, 3) == 0;
    assert DigitRun(s, 5, 4) == 1;
    assert DigitsValue(s, 5, 1) == 2;
    assert ParseOperand(s, 5, ',') == Some((2, 7));
    assert DigitRun(s, 8, 3) == 0;
    assert DigitRun(s, 7, 4) == 1;
    assert DigitsValue(s, 7, 1) == 4;
    assert ParseOperand(s, 7, ')') == Some((4, 9));
    assert ScanFrom(s, 1, true) == [Mul(2, 4), Dont, Mul(5, 5), Mul(11, 8), Do, Mul(8, 5)];
    assert ScanFrom(s, 0, true) == [Mul(2, 4), Dont, Mul(5, 5), Mul(11, 8), Do, Mul(8, 5)];
  }
  /**
   * The first example line: `mul[3,7]` and `mul(32,64]` are malformed, the
   * `mul(5,5)` inside `do_not_mul(5,5)` matches, and the answer is 161.
   */
  lemma FirstExample()
    ensures Scan(TEST, false) == [Mul(2, 4), Mul(5, 5), Mul(11, 8), Mul(8, 5)]
    ensures Part1([TEST]) == 161
  {
    FirstSpelled();
    FirstFrom0(TEST);
    assert ProductSum([Mul(2, 4), Mul(5, 5), Mul(11, 8), Mul(8, 5)]) == 161;
    assert Part1([TEST]) == ProductSum(Scan(TEST, false)) + Part1([]);
  }

  /**
   * The second example line: `don't()` disables `mul(5,5)` and `mul(11,8)`,
   * the `do()` inside `undo()` enables `mul(8,5)` again, and the answer is 48.
   */
  lemma SecondExample()
    ensures Scan(TEST2, true) == [Mul(2, 4), Dont, Mul(5, 5), Mul(11, 8), Do, Mul(8, 5)]
    ensures Part2([TEST2]) == 48
  {
    SecondSpelled();
    SecondFrom0(TEST2);
    assert Join([TEST2]) == TEST2;
    assert Run([Mul(2, 4), Dont, Mul(5, 5), Mul(11, 8), Do, Mul(8, 5)]).sum == 48;
  }

  /** Operands are limited to three digits: a four-digit operand is no match. */
  lemma FourDigitsRejected(s: string)
    requires s == "mul(1234,5)"
    ensures Scan(s, false) == []
  {
    assert DigitRun(s, 8, 0) == 0;
    assert DigitRun(s, 4, 4) == 4;
    assert ParseOperand(s, 4, ',') == None;
    assert ScanFrom(s, 11, false) == [];
    assert ScanFrom(s, 10, false) == [];
    assert ScanFrom(s, 9, false) == [];
    assert ScanFrom(s, 8, false) == [];
    assert ScanFrom(s, 7, false) == [];
    assert ScanFrom(s, 6, false) == [];
    assert ScanFrom(s, 5, false) == [];
    assert ScanFrom(s, 4, false) == [];
    assert ScanFrom(s, 3, false) == [];
    assert ScanFrom(s, 2, false) == [];
    assert ScanFrom(s, 1, false) == [];
  }

  /** A `don't()` on one line disables the `mul`s of the next, which the first answer counts. */
  lemma ToggleCarriesAcrossLines()
    ensures Part1(["don't()", "mul(2,3)"]) == 6
    ensures Part2(["don't()", "mul(2,3)"]) == 0
  {
    assert Join(["don't()", "mul(2,3)"]) == RenderAll([Dont, Mul(2, 3)]);
    assert "don't()" == RenderAll([Dont]);
    assert "mul(2,3)" == RenderAll([Mul(2, 3)]);
    ScanRendered([Dont, Mul(2, 3)]);
    ScanRendered([Dont]);
    ScanRendered([Mul(2, 3)]);
  }

  /** A `mul` cut off after its first operand is no match. */
  lemma OpenMulRejected(s: string)
    requires s == "mul(2,"
    ensures Scan(s, false) == []
  {
    assert OccursFrom(s, 0, "mul(", 3);
    assert Occurs(s, 0, "mul(");
    assert DigitRun(s, 5, 3) == 0;
    assert ParseOperand(s, 4, ',') == Some((2, 6));
    assert ParseOperand(s, 6, ')') == None;
    SkipWithoutM(s, 1, 6);
  }

  lemma CloseRejected(s: string)
    requires s == "3)"
    ensures Scan(s, false) == []
  {
    SkipWithoutM(s, 0, 2);
  }

  /** Joining the lines also lets a `mul` split over two lines match in the second answer only. */
  lemma MulSplitOverLines()
    ensures Part1(["mul(2,", "3)"]) == 0
    ensures Part2(["mul(2,", "3)"]) == 6
  {
    assert Join(["mul(2,", "3)"]) == RenderAll([Mul(2, 3)]);
    ScanRendered([Mul(2, 3)]);
    OpenMulRejected("mul(2,");
    CloseRejected("3)");
    assert Part1(["mul(2,", "3)"]) == ProductSum(Scan("mul(2,", false)) + Part1(["3)"]);
  }
}

