/**
 * The employee review screen (src/components/EmployeePortal.jsx): the
 * client-side directory of bank names to SWIFT codes, the SWIFT check made on
 * approval, and the four review lists plus the per-payment "verifying" flags.
 */
module EmployeePortal {
  import opened Common
  import opened Text
  import opened PaymentModel
  import PaymentRoutes

  /** `validSwiftCodes`: bank name to SWIFT code. Some entries are 8-character codes. */
  const ValidSwiftCodes: map<string, string> := map[
    "Absa Bank Limited" := "ABSAZAJJXXX",
    "African Bank Limited" := "AFRCZAJJXXX",
    "Bidvest Bank Limited" := "BIDBZAJJXXX",
    "Capitec Bank Limited" := "CABLZAJJXXX",
    "Discovery Bank Limited" := "DISCZAJJ",
    "First National Bank (FNB)" := "FIRNZAJJ",
    "FirstRand Bank" := "FIRNZAJJRSL",
    "Grindrod Bank Limited" := "GRIDZAJJXXX",
    "Investec Bank Limited" := "IVESZAJJXXX",
    "Mercantile Bank Limited" := "LISAZAJJXXX",
    "Nedbank Limited" := "NEDSZAJJXXX",
    "Standard Bank of South Africa" := "SBZAZAJJ"
  ]

  /** `(payment.swiftCode || "").trim().toUpperCase()` */
  function EnteredSwift(p: PaymentRecord): string {
    Upper(Trim(OrEmpty(p.swiftCode)))
  }

  /**
   * `(payment.bankName || "").trim()`: the name is looked up exactly, with no
   * case folding. An inherited property name such as "constructor" finds a
   * function rather than a string, which never equals the entered code, so it
   * behaves as an unknown name.
   */
  function BankKey(p: PaymentRecord): string {
    Trim(OrEmpty(p.bankName))
  }

  /** `enteredSwift && expectedSwift && enteredSwift === expectedSwift`, on the looked-up name and the normalised code. */
  predicate SwiftMatches(name: string, entered: string) {
    entered != "" && name in ValidSwiftCodes && ValidSwiftCodes[name] == entered
  }

  /** The verdict `handleApprove` computes for one payment before its timer starts. */
  predicate IsValidSwift(p: PaymentRecord) {
    SwiftMatches(BankKey(p), EnteredSwift(p))
  }

  /** A SWIFT code stored in normal form is entered as it is. */
  lemma {:induction false} EnteredSwiftOf(p: PaymentRecord, code: string)
    requires p.swiftCode == Some(code)
    requires code != [] ==> !IsSpace(code[0]) && !IsSpace(code[|code| - 1])
    requires forall i :: 0 <= i < |code| ==> !IsAsciiLower(code[i])
    ensures EnteredSwift(p) == code
  {
    calc {
      EnteredSwift(p);
      Upper(Trim(OrEmpty(p.swiftCode)));
      Upper(Trim(code));
   == { NormalFormFixed(code); }
      code;
    }
  }

  /** A bank name without surrounding white space is looked up as it is. */
  lemma {:induction false} BankKeyOf(p: PaymentRecord, name: string)
    requires p.bankName == Some(name)
    requires name != [] ==> !IsSpace(name[0]) && !IsSpace(name[|name| - 1])
    ensures BankKey(p) == name
  {
    calc {
      BankKey(p);
      Trim(OrEmpty(p.bankName));
      Trim(name);
   == { TrimFixed(name); }
      name;
    }
  }

  /** An unknown bank name, or an absent or blank SWIFT code, is never valid. */
  lemma {:induction false} InvalidWithoutBankOrCode(p: PaymentRecord)
    ensures BankKey(p) !in ValidSwiftCodes ==> !IsValidSwift(p)
    ensures Trim(OrEmpty(p.swiftCode)) == "" ==> !IsValidSwift(p)
  {
  }

  /** A valid payment's entered code is, letter for letter, the directory's code for that bank. */
  lemma {:induction false} ValidMeansDirectoryCode(p: PaymentRecord)
    requires IsValidSwift(p)
    ensures EnteredSwift(p) in ValidSwiftCodes.Values
    ensures |EnteredSwift(p)| == 8 || |EnteredSwift(p)| == 11
  {
    MatchedCodeInDirectory(BankKey(p), EnteredSwift(p));
  }

  /** A matched code is one of the directory's codes, of 8 or 11 characters. */
  lemma {:induction false} MatchedCodeInDirectory(name: string, entered: string)
    requires SwiftMatches(name, entered)
    ensures entered in ValidSwiftCodes.Values
    ensures |entered| == 8 || |entered| == 11
  {
    assert ValidSwiftCodes[name] in ValidSwiftCodes.Values;
  }

  /** The normalised entered code has no lower-case letter and no white space at its ends. */
  lemma {:induction false} EnteredSwiftNormal(p: PaymentRecord)
    ensures forall i :: 0 <= i < |EnteredSwift(p)| ==> !IsAsciiLower(EnteredSwift(p)[i])
    ensures EnteredSwift(p) != [] ==> !IsSpace(EnteredSwift(p)[0]) && !IsSpace(EnteredSwift(p)[|EnteredSwift(p)| - 1])
  {
    var t := Trim(OrEmpty(p.swiftCode));
    forall i | 0 <= i < |Upper(t)| ensures !IsAsciiLower(Upper(t)[i]) {
      UpperAt(t, i);
    }
    if t != [] {
      UpperKeepsSpace(t, 0);
      UpperKeepsSpace(t, |t| - 1);
    }
  }

  /**
   * The code comparison ignores the case of the entered code and any white
   * space around it: a valid payment stays valid when its code is re-entered
   * in lower case between arbitrary padding.
   */
  lemma {:induction false} CodeComparisonNormalises(p: PaymentRecord, pad1: string, pad2: string)
    requires IsValidSwift(p)
    requires AllSpace(pad1) && AllSpace(pad2)
    ensures IsValidSwift(p.(swiftCode := Some(pad1 + Lower(EnteredSwift(p)) + pad2)))
  {
    var c := EnteredSwift(p);
    var q := p.(swiftCode := Some(pad1 + Lower(c) + pad2));
    EnteredSwiftNormal(p);
    if c != [] {
      LowerKeepsSpace(c, 0);
      LowerKeepsSpace(c, |c| - 1);
    }
    calc {
      EnteredSwift(q);
      Upper(Trim(pad1 + Lower(c) + pad2));
   == { TrimPadded(pad1, Lower(c), pad2); }
      Upper(Lower(c));
   == { UpperLower(c); }
      Upper(c);
   == { UpperFixed(c); }
      c;
    }
    assert BankKey(q) == BankKey(p);
  }

  /** "nedbank limited" is no key of the directory, although "Nedbank Limited" is. */
  lemma {:induction false} LowerCaseNameUnknown(name: string)
    requires name == "nedbank limited"
    ensures name !in ValidSwiftCodes && "Nedbank Limited" in ValidSwiftCodes
  {
  }

  /** The bank name is matched case-sensitively: the lower-cased name of a known bank is unknown. */
  lemma {:induction false} BankNameCaseSensitive(p: PaymentRecord)
    requires p.bankName == Some("nedbank limited")
    ensures !IsValidSwift(p)
  {
    BankKeyOf(p, "nedbank limited");
    LowerCaseNameUnknown(BankKey(p));
  }

  /** A directory code followed by "XXX" never matches that code. */
  lemma {:induction false} LongFormRefused(p: PaymentRecord)
    requires BankKey(p) in ValidSwiftCodes
    requires EnteredSwift(p) == ValidSwiftCodes[BankKey(p)] + "XXX"
    ensures !IsValidSwift(p)
  {
    assert |EnteredSwift(p)| == |ValidSwiftCodes[BankKey(p)]| + 3;
  }

  /** The directory's entries that hold only the 8-character form of their code. */
  lemma {:induction false} ShortEntries(name: string)
    requires name in ValidSwiftCodes
    ensures |ValidSwiftCodes[name]| == 8 <==>
              name == "Discovery Bank Limited" || name == "First National Bank (FNB)" || name == "Standard Bank of South Africa"
  {
  }

  /** "Discovery Bank Limited" is looked up as it is written. */
  lemma {:induction false} DiscoveryKey(p: PaymentRecord)
    requires p.bankName == Some("Discovery Bank Limited")
    ensures BankKey(p) == "Discovery Bank Limited"
  {
    BankKeyOf(p, "Discovery Bank Limited");
  }

  /** The directory holds the 8-character code for Discovery Bank Limited. */
  lemma {:induction false} DiscoveryEntry()
    ensures "Discovery Bank Limited" in ValidSwiftCodes
    ensures |ValidSwiftCodes["Discovery Bank Limited"]| == 8
  {
  }

  /** "DISCZAJJXXX" is entered as it is written. */
  lemma {:induction false} DiscoveryLongCode(p: PaymentRecord)
    requires p.swiftCode == Some("DISCZAJJXXX")
    ensures EnteredSwift(p) == "DISCZAJJXXX"
  {
    EnteredSwiftOf(p, "DISCZAJJXXX");
  }

  /** An 8-character directory entry refuses its 11-character "XXX" form, which the SWIFT standard treats as the same bank. */
  lemma {:induction false} ShortEntryRefusesLongForm(p: PaymentRecord)
    requires p.bankName == Some("Discovery Bank Limited")
    requires p.swiftCode == Some("DISCZAJJXXX")
    ensures !IsValidSwift(p)
  {
    DiscoveryKey(p);
    DiscoveryLongCode(p);
    DiscoveryEntry();
    assert |EnteredSwift(p)| == 11;
  }

  /** A pending transfer that names no bank and carries the server directory's code `code`. */
  function CodeOnlyTransfer(p: PaymentRecord, code: string): PaymentRecord {
    p.(bankName := None, swiftCode := Some(code))
  }

  /** The server codes whose back-filled bank name the client directory maps back to the same code. */
  const AgreeingCodes: set<string> := {
    "ABSAZAJJXXX", "AFRCZAJJXXX", "BIDBZAJJXXX", "CABLZAJJXXX",
    "GRIDZAJJXXX", "IVESZAJJXXX", "LISAZAJJXXX", "NEDSZAJJXXX"
  }

  /** Every code of the server directory is in normal form. */
  lemma {:induction false} ServerCodeNormal(code: string)
    requires code in PaymentRoutes.SwiftMap
    ensures code != [] ==> !IsSpace(code[0]) && !IsSpace(code[|code| - 1])
    ensures forall i :: 0 <= i < |code| ==> !IsAsciiLower(code[i])
  {
  }

  /** Every name of the server directory is free of surrounding white space. */
  lemma {:induction false} ServerNameTrimmed(code: string)
    requires code in PaymentRoutes.SwiftMap
    ensures var name := PaymentRoutes.SwiftMap[code];
            name != [] ==> !IsSpace(name[0]) && !IsSpace(name[|name| - 1])
  {
  }

  /** The names the server directory gives back are matched by the client directory for only eight codes. */
  lemma {:induction false} DirectoryAgreement(code: string)
    requires code in PaymentRoutes.SwiftMap
    ensures SwiftMatches(PaymentRoutes.SwiftMap[code], code) <==> code in AgreeingCodes
  {
  }

  /** Back-filling a code-only transfer gives it the server directory's name for that code. */
  lemma {:induction false} EnrichCodeOnly(p: PaymentRecord, code: string)
    requires code in PaymentRoutes.SwiftMap
    ensures PaymentRoutes.Enrich(CodeOnlyTransfer(p, code)).bankName == Some(PaymentRoutes.SwiftMap[code])
    ensures PaymentRoutes.Enrich(CodeOnlyTransfer(p, code)).swiftCode == Some(code)
  {
    ServerKeyFixed(code);
  }

  /** A server directory code is its own lookup key. */
  lemma {:induction false} ServerKeyFixed(code: string)
    requires code in PaymentRoutes.SwiftMap
    ensures PaymentRoutes.SwiftKey(Some(code)) == Some(code)
  {
    ServerCodeNormal(code);
    NormalFormFixed(code);
  }

  /**
   * The two directories disagree: a transfer that names no bank, whose bank
   * name the server back-fills from its own directory, passes the client
   * check for only eight of the twelve server codes. For "DISCZAJJXXX" and
   * "SBZAZAJJXXX" the client holds the 8-character form; "First National Bank"
   * and "Finbond Bank Limited" are not client names at all.
   */
  lemma {:induction false} DirectoriesDisagree(p: PaymentRecord, code: string)
    requires code in PaymentRoutes.SwiftMap
    ensures IsValidSwift(PaymentRoutes.Enrich(CodeOnlyTransfer(p, code))) <==> code in AgreeingCodes
  {
    var e := PaymentRoutes.Enrich(CodeOnlyTransfer(p, code));
    EnrichCodeOnly(p, code);
    ServerCodeNormal(code);
    ServerNameTrimmed(code);
    BankKeyOf(e, PaymentRoutes.SwiftMap[code]);
    EnteredSwiftOf(e, code);
    DirectoryAgreement(code);
  }

  /** `prev.filter((p) => p._id !== id)` */
  function RemoveId(s: seq<PaymentRecord>, id: ObjectId): (r: seq<PaymentRecord>)
    ensures |r| <= |s|
    ensures forall x :: x in r <==> x in s && x.id != id
  {
    if s == [] then []
    else (if s[0].id == id then [] else [s[0]]) + RemoveId(s[1..], id)
  }

  /** Filtering distributes over concatenation, so the kept entries stay in their order. */
  lemma {:induction false} RemoveIdAppend(a: seq<PaymentRecord>, b: seq<PaymentRecord>, id: ObjectId)
    ensures RemoveId(a + b, id) == RemoveId(a, id) + RemoveId(b, id)
  {
    if a != [] {
      assert (a + b)[0] == a[0];
      assert (a + b)[1..] == a[1..] + b;
      RemoveIdAppend(a[1..], b, id);
    } else {
      assert a + b == b;
    }
  }

  /** A list without that id is left exactly as it was. */
  lemma {:induction false} RemoveIdAbsent(s: seq<PaymentRecord>, id: ObjectId)
    requires forall i :: 0 <= i < |s| ==> s[i].id != id
    ensures RemoveId(s, id) == s
  {
    if s != [] {
      RemoveIdAbsent(s[1..], id);
    }
  }

  /**
   * The review screen's state: the four lists it renders and the
   * `verificationStatus` map, whose entry for a payment says whether its
   * SWIFT check is still running.
   */
  class ReviewBoard {
    var pending: seq<PaymentRecord>
    var verified: seq<PaymentRecord>
    var unverified: seq<PaymentRecord>
    var submitted: seq<PaymentRecord>
    var verifying: map<ObjectId, bool>

    /** The state after the initial load: three lists from the backend, nothing verified or verifying yet. */
    constructor (pendingLoaded: seq<PaymentRecord>, submittedLoaded: seq<PaymentRecord>, rejectedLoaded: seq<PaymentRecord>)
      ensures pending == pendingLoaded && submitted == submittedLoaded && unverified == rejectedLoaded
      ensures verified == [] && verifying == map[]
    {
      pending := pendingLoaded;
      submitted := submittedLoaded;
      unverified := rejectedLoaded;
      verified := [];
      verifying := map[];
    }

    /** The synchronous part of `handleApprove`: compute the verdict and mark the payment as verifying. */
    method BeginApprove(p: PaymentRecord) returns (isValid: bool)
      modifies this
      ensures isValid == IsValidSwift(p)
      ensures verifying == old(verifying)[p.id := true]
      ensures pending == old(pending) && verified == old(verified)
      ensures unverified == old(unverified) && submitted == old(submitted)
    {
      var name := BankKey(p);
      var entered := EnteredSwift(p);
      isValid := SwiftMatches(name, entered);
      verifying := verifying[p.id := true];
    }

    /**
     * The timer callback of `handleApprove`, with the verdict computed at the
     * start. It clears the flag and drops the payment from the pending list;
     * a valid payment is appended to the verified list, an invalid one is
     * appended to the unverified list as "rejected" and `requestReject` says
     * that the backend reject request is issued.
     */
    method CompleteApprove(p: PaymentRecord, isValid: bool) returns (requestReject: bool)
      modifies this
      ensures verifying == old(verifying)[p.id := false]
      ensures pending == RemoveId(old(pending), p.id)
      ensures isValid ==> verified == old(verified) + [p] && unverified == old(unverified)
      ensures !isValid ==> unverified == old(unverified) + [p.(status := Rejected)] && verified == old(verified)
      ensures requestReject == !isValid
      ensures submitted == old(submitted)
    {
      verifying := verifying[p.id := false];
      pending := RemoveId(pending, p.id);
      if isValid {
        verified := verified + [p];
        requestReject := false;
      } else {
        unverified := unverified + [p.(status := Rejected)];
        requestReject := true;
      }
    }

    /**
     * `handleSwiftSubmit`: when the status request's response has been read,
     * the payment leaves the verified list and is appended, as it was, to the
     * submitted list; when the request fails nothing changes.
     */
    method SwiftSubmit(p: PaymentRecord, responseRead: bool)
      modifies this
      ensures responseRead ==> verified == RemoveId(old(verified), p.id) && submitted == old(submitted) + [p]
      ensures !responseRead ==> verified == old(verified) && submitted == old(submitted)
      ensures pending == old(pending) && unverified == old(unverified) && verifying == old(verifying)
    {
      if responseRead {
        verified := RemoveId(verified, p.id);
        submitted := submitted + [p];
      }
    }
  }
}
