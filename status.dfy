/**
 * DNS response codes (RCODEs) as the client names them, and the table of
 * human-readable messages it reports for them. The codes and their meanings
 * are those of section 4.1.1 of RFC 1035 and the IANA "DNS RCODEs" registry.
 */
module DohStatus {
  import opened Wrappers
  import opened Text

  // Enumeration names and values. Two names share the value 16.
  const NoError := 0
  const FormErr := 1
  const ServFail := 2
  const NXDomain := 3
  const NotImp := 4
  const Refused := 5
  const YXDomain := 6
  const YXRRSet := 7
  const NXRRSet := 8
  const NotAuth := 9
  const NotZone := 10
  const DSOTYPENI := 11
  const BADVERS := 16
  const BADSIG := 16
  const BADKEY := 17
  const BADTIME := 18
  const BADMODE := 19
  const BADNAME := 20
  const BADALG := 21
  const BADTRUNC := 22
  const BADCOOKIE := 23

  // The meaning the registry gives each enumeration name. Code 9 carries two
  // meanings (RFC 2136 and RFC 8945); the second is a commented-out
  // declaration in the enumeration and appears only in the message.
  const NoErrorText := "No Error [RFC1035]"
  const FormErrText := "Format Error [RFC1035]"
  const ServFailText := "Server Failure [RFC1035]"
  const NXDomainText := "Non-Existent Domain [RFC1035]"
  const NotImpText := "Not Implemented [RFC1035]"
  const RefusedText := "Query Refused [RFC1035]"
  const YXDomainText := "Name Exists when it should not [RFC2136][RFC6672]"
  const YXRRSetText := "RR Set Exists when it should not [RFC2136]"
  const NXRRSetText := "RR Set that should exist does not [RFC2136]"
  const NotAuthZoneText := "Server Not Authoritative for zone [RFC2136]"
  const NotAuthorizedText := "Not Authorized [RFC8945]"
  const NotZoneText := "Name not contained in zone [RFC2136]"
  const DSOTYPENIText := "DSO-TYPE Not Implemented [RFC8490]"
  const BADVERSText := "Bad OPT Version [RFC6891]"
  const BADSIGText := "TSIG Signature Failure [RFC8945]"
  const BADKEYText := "Key not recognized [RFC8945]"
  const BADTIMEText := "Signature out of time window [RFC8945]"
  const BADMODEText := "Bad TKEY Mode [RFC2930]"
  const BADNAMEText := "Duplicate key name [RFC2930]"
  const BADALGText := "Algorithm not supported [RFC2930]"
  const BADTRUNCText := "Bad Truncation [RFC8945]"
  const BADCOOKIEText := "Bad/missing Server Cookie [RFC7873]"

  /** One declaration of the enumeration: its name, value and registry meaning. */
  datatype Assignment = Assignment(name: string, code: int, meaning: string)

  /** The enumeration in declaration order, the commented-out second NotAuth included. */
  const Assignments: seq<Assignment> := [
    Assignment("NoError", NoError, NoErrorText),
    Assignment("FormErr", FormErr, FormErrText),
    Assignment("ServFail", ServFail, ServFailText),
    Assignment("NXDomain", NXDomain, NXDomainText),
    Assignment("NotImp", NotImp, NotImpText),
    Assignment("Refused", Refused, RefusedText),
    Assignment("YXDomain", YXDomain, YXDomainText),
    Assignment("YXRRSet", YXRRSet, YXRRSetText),
    Assignment("NXRRSet", NXRRSet, NXRRSetText),
    Assignment("NotAuth", NotAuth, NotAuthZoneText),
    Assignment("NotAuth", NotAuth, NotAuthorizedText),
    Assignment("NotZone", NotZone, NotZoneText),
    Assignment("DSOTYPENI", DSOTYPENI, DSOTYPENIText),
    Assignment("BADVERS", BADVERS, BADVERSText),
    Assignment("BADSIG", BADSIG, BADSIGText),
    Assignment("BADKEY", BADKEY, BADKEYText),
    Assignment("BADTIME", BADTIME, BADTIMEText),
    Assignment("BADMODE", BADMODE, BADMODEText),
    Assignment("BADNAME", BADNAME, BADNAMEText),
    Assignment("BADALG", BADALG, BADALGText),
    Assignment("BADTRUNC", BADTRUNC, BADTRUNCText),
    Assignment("BADCOOKIE", BADCOOKIE, BADCOOKIEText)
  ]

  /** The message of a code with two meanings names both. */
  function Either(first: string, second: string): string
  {
    first + " or " + second
  }

  /** The message table, keyed by code. Unassigned codes have no entry. */
  const Messages: map<int, string> := map[
    NoError := NoErrorText,
    FormErr := FormErrText,
    ServFail := ServFailText,
    NXDomain := NXDomainText,
    NotImp := NotImpText,
    Refused := RefusedText,
    YXDomain := YXDomainText,
    YXRRSet := YXRRSetText,
    NXRRSet := NXRRSetText,
    NotAuth := Either(NotAuthZoneText, NotAuthorizedText),
    NotZone := NotZoneText,
    DSOTYPENI := DSOTYPENIText,
    BADSIG := Either(BADSIGText, BADVERSText),
    BADKEY := BADKEYText,
    BADTIME := BADTIMEText,
    BADMODE := BADMODEText,
    BADNAME := BADNAMEText,
    BADALG := BADALGText,
    BADTRUNC := BADTRUNCText,
    BADCOOKIE := BADCOOKIEText
  ]

  /** Codes the registry assigns and the client knows: 0-11 and 16-23. */
  predicate IsAssigned(code: int)
  {
    0 <= code <= 11 || 16 <= code <= 23
  }

  /** Looks a code up in the message table; `None` stands for `undefined`. */
  function StatusMessage(code: int): (r: Option<string>)
    ensures r.Some? <==> IsAssigned(code)
    ensures r.Some? ==> r.value == Messages[code]
  {
    if code in Messages then Some(Messages[code]) else None
  }

  /** Every declared meaning of a code is named in that code's message. */
  lemma MessagesNameEveryMeaning()
    ensures forall k :: 0 <= k < |Assignments| ==> MeaningNamed(Assignments[k])
  {
    HeaderCodesNamed();
    ExtendedCodesNamed();
  }

  /** Codes 0-11, which fit the four-bit RCODE field of the DNS header. */
  lemma HeaderCodesNamed()
    ensures forall k :: 0 <= k < 13 ==> MeaningNamed(Assignments[k])
  {
    EitherNamesBoth(NotAuthZoneText, NotAuthorizedText);
    forall k | 0 <= k < 13 && k != 9 && k != 10
      ensures MeaningNamed(Assignments[k])
    {
      SingleMeaningNamed(Assignments[k]);
    }
  }

  /** Codes 16-23, which only fit an extended RCODE or a TSIG/TKEY error field. */
  lemma ExtendedCodesNamed()
    ensures forall k :: 13 <= k < |Assignments| ==> MeaningNamed(Assignments[k])
  {
    EitherNamesBoth(BADSIGText, BADVERSText);
    forall k | 13 <= k < |Assignments| && k != 13 && k != 14
      ensures MeaningNamed(Assignments[k])
    {
      SingleMeaningNamed(Assignments[k]);
    }
  }

  /** The message of the declaration's code names its meaning. */
  ghost predicate MeaningNamed(a: Assignment)
  {
    a.code in Messages && IsInfix(a.meaning, Messages[a.code])
  }

  lemma SingleMeaningNamed(a: Assignment)
    requires a.code in Messages && Messages[a.code] == a.meaning
    ensures MeaningNamed(a)
  {
    InfixOfSelf(a.meaning);
  }

  lemma EitherNamesBoth(first: string, second: string)
    ensures IsInfix(first, Either(first, second)) && IsInfix(second, Either(first, second))
  {
    assert Either(first, second) == "" + first + (" or " + second) == (first + " or ") + second + "";
    InfixOfConcat("", first, " or " + second);
    InfixOfConcat(first + " or ", second, "");
  }

  /** The table has an entry exactly for the codes the enumeration declares. */
  lemma MessagesCoverDeclaredCodes()
    ensures forall code :: code in Messages ==>
      exists k :: 0 <= k < |Assignments| && Assignments[k].code == code
    ensures forall k :: 0 <= k < |Assignments| ==> Assignments[k].code in Messages
  {
    MessagesNameEveryMeaning();
    forall code | code in Messages
      ensures exists k :: 0 <= k < |Assignments| && Assignments[k].code == code
    {
      var k := if code <= 9 then code else if code <= 11 then code + 1 else code - 2;
      assert Assignments[k].code == code;
    }
  }

  /** The codes 9 and 16 are the only ones declared twice. */
  lemma OverloadedCodes(i: int, j: int)
    requires 0 <= i < j < |Assignments|
    requires Assignments[i].code == Assignments[j].code
    ensures Assignments[i].code in {NotAuth, BADSIG}
    ensures Assignments[i].meaning != Assignments[j].meaning
  {
  }
}
