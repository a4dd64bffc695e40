/**
 * The rewrite on concrete identifiers, worked out step by step through the
 * scan buffer.
 */
module RewriteExamples {
  import opened Boundaries
  import opened CustomCaseNameWriter

  /** The empty name comes back unchanged. */
  lemma EmptyName()
    ensures Rewrite("") == ""
  {
  }

  /** A single capitalised word. */
  lemma SingleWord()
    ensures Rewrite("Name") == "NAME"
  {
    var s := "Name";
    assert Scanned(s, 1) == "N";
    assert Scanned(s, 2) == "NA";
    assert Scanned(s, 3) == "NAM";
    assert Scanned(s, 4) == "NAME";
  }

  /** Lower-to-upper boundary. */
  lemma CamelCase()
    ensures Rewrite("fooBar") == "FOO_BAR"
  {
    var s := "fooBar";
    assert Scanned(s, 1) == "F";
    assert Scanned(s, 2) == "FO";
    assert Scanned(s, 3) == "FOO";
    assert Scanned(s, 4) == "FOO_B";
    assert Scanned(s, 5) == "FOO_BA";
    assert Scanned(s, 6) == "FOO_BAR";
  }

  /** End of an acronym. */
  lemma AcronymThenWord()
    ensures Rewrite("XMLParser") == "XML_PARSER"
  {
    var s := "XMLParser";
    assert Scanned(s, 1) == "X";
    assert Scanned(s, 2) == "XM";
    assert Scanned(s, 3) == "XML";
    RunAtLeastTwo(s, 3);
    assert Scanned(s, 4) == "XML_P";
    assert Scanned(s, 5) == "XML_PA";
    assert Scanned(s, 6) == "XML_PAR";
    assert Scanned(s, 7) == "XML_PARS";
    assert Scanned(s, 8) == "XML_PARSE";
    assert Scanned(s, 9) == "XML_PARSER";
  }

  /** A run of one upper-case letter is not an acronym. */
  lemma ShortRunNoAcronym()
    ensures Rewrite("ABc") == "ABC"
  {
    var s := "ABc";
    assert Scanned(s, 1) == "A";
    RunAtLeastTwo(s, 1);
    assert Scanned(s, 2) == "AB";
    assert Scanned(s, 3) == "ABC";
  }

  /** Digits count towards the acronym run. */
  lemma DigitInAcronymRun()
    ensures Rewrite("1ABc") == "1A_BC"
  {
    var s := "1ABc";
    assert Scanned(s, 1) == "1";
    assert Scanned(s, 2) == "1A";
    RunAtLeastTwo(s, 2);
    assert Scanned(s, 3) == "1A_B";
    assert Scanned(s, 4) == "1A_BC";
  }

  /** Trailing digits after a lower-case letter. */
  lemma TrailingDigitAfterLower()
    ensures Rewrite("item2") == "ITEM_2"
  {
    var s := "item2";
    assert Scanned(s, 1) == "I";
    assert Scanned(s, 2) == "IT";
    assert Scanned(s, 3) == "ITE";
    assert Scanned(s, 4) == "ITEM";
    assert Scanned(s, 5) == "ITEM2";
    assert TrailingDigits(s) == 1;
  }

  /** Camel case and a trailing digit. */
  lemma UserIdOne()
    ensures Rewrite("UserId1") == "USER_ID_1"
  {
    var s := "UserId1";
    assert Scanned(s, 1) == "U";
    assert Scanned(s, 2) == "US";
    assert Scanned(s, 3) == "USE";
    assert Scanned(s, 4) == "USER";
    assert Scanned(s, 5) == "USER_I";
    assert Scanned(s, 6) == "USER_ID";
    assert Scanned(s, 7) == "USER_ID1";
    assert TrailingDigits(s) == 1;
  }

  /** No splice after an upper-case letter. */
  lemma TrailingDigitAfterUpper()
    ensures Rewrite("XMLParserV2") == "XML_PARSER_V2"
  {
    var s := "XMLParserV2";
    assert Scanned(s, 1) == "X";
    assert Scanned(s, 2) == "XM";
    assert Scanned(s, 3) == "XML";
    assert Scanned(s, 4) == "XML_P";
    assert Scanned(s, 5) == "XML_PA";
    assert Scanned(s, 6) == "XML_PAR";
    assert Scanned(s, 7) == "XML_PARS";
    assert Scanned(s, 8) == "XML_PARSE";
    assert Scanned(s, 9) == "XML_PARSER";
    assert Scanned(s, 10) == "XML_PARSER_V";
    assert Scanned(s, 11) == "XML_PARSER_V2";
    assert TrailingDigits(s) == 1;
  }

  /** No separator at a letter-to-digit step, one at digit-to-word. */
  lemma DigitThenWord()
    ensures Rewrite("v2Something") == "V2_SOMETHING"
  {
    var s := "v2Something";
    assert Scanned(s, 1) == "V";
    assert Scanned(s, 2) == "V2";
    assert Scanned(s, 3) == "V2_S";
    assert Scanned(s, 4) == "V2_SO";
    assert Scanned(s, 5) == "V2_SOM";
    assert Scanned(s, 6) == "V2_SOME";
    assert Scanned(s, 7) == "V2_SOMET";
    assert Scanned(s, 8) == "V2_SOMETH";
    assert Scanned(s, 9) == "V2_SOMETHI";
    assert Scanned(s, 10) == "V2_SOMETHIN";
    assert Scanned(s, 11) == "V2_SOMETHING";
  }

  /** An inner digit run gets no splice. */
  lemma InnerDigitThenWord()
    ensures Rewrite("item2Foo") == "ITEM2_FOO"
  {
    var s := "item2Foo";
    assert Scanned(s, 1) == "I";
    assert Scanned(s, 2) == "IT";
    assert Scanned(s, 3) == "ITE";
    assert Scanned(s, 4) == "ITEM";
    assert Scanned(s, 5) == "ITEM2";
    assert Scanned(s, 6) == "ITEM2_F";
    assert Scanned(s, 7) == "ITEM2_FO";
    assert Scanned(s, 8) == "ITEM2_FOO";
  }

  /** An underscore of the input is copied. */
  lemma UnderscoreKept()
    ensures Rewrite("aB_c") == "A_B_C"
  {
    var s := "aB_c";
    assert Scanned(s, 1) == "A";
    assert Scanned(s, 2) == "A_B";
    assert Scanned(s, 3) == "A_B_";
    assert Scanned(s, 4) == "A_B_C";
  }
}
