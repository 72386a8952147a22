/** The booking form of the hotel cancellation predictor: the input widgets and
    their legal values, and the normaliser that turns the form's selections into
    the ten user-derived values of the classifier's feature record. */
module BookingForm {
  import opened PyStr

  /** U+2013 EN DASH, the glyph between code and description in every option. */
  const EnDash: char := '\U{2013}'

  /** The meal code is cut off at the first single space. */
  const MealSeparator: string := " "

  /** Market segment, deposit type and customer type are cut off at " – ". */
  const CodeSeparator: string := [' ', EnDash, ' ']

  // ---------------- input widgets ----------------

  /** An integer number widget: its minimum, its maximum and its initial value.
      The widget only hands out values between its minimum and maximum. */
  datatype NumberWidget = NumberWidget(min: int, max: int, initial: int)

  predicate Accepts(w: NumberWidget, v: int) {
    w.min <= v <= w.max
  }

  const LeadTimeWidget := NumberWidget(0, 500, 50)
  const AdultsWidget := NumberWidget(1, 5, 2)
  const ChildrenWidget := NumberWidget(0, 5, 0)
  const BabiesWidget := NumberWidget(0, 2, 0)

  /** Every option of the meal, market-segment, deposit and customer drop-downs
      is a short code, " – " and a description; the option strings below are
      those of the form, written as that concatenation. The meal field is still
      cut at the first single space, the other three at " – ". The month
      drop-down lists plain month names and is passed on as chosen. */
  const MealOptions: seq<string> := [
    "BB" + CodeSeparator + "Bed & Breakfast",
    "HB" + CodeSeparator + "Half Board (Breakfast + Dinner)",
    "FB" + CodeSeparator + "Full Board (All meals included)",
    "SC" + CodeSeparator + "Self Catering (No meals)"
  ]

  const SegmentOptions: seq<string> := [
    "Direct" + CodeSeparator + "Booked directly with the hotel",
    "Corporate" + CodeSeparator + "Company or business booking",
    "Online TA" + CodeSeparator + "Online travel website",
    "Offline TA/TO" + CodeSeparator + "Travel agent or tour operator"
  ]

  const DepositOptions: seq<string> := [
    "No Deposit" + CodeSeparator + "Nothing paid in advance",
    "Non Refund" + CodeSeparator + "Advance payment, not refundable",
    "Refundable" + CodeSeparator + "Advance payment, refundable"
  ]

  const CustomerOptions: seq<string> := [
    "Transient" + CodeSeparator + "Individual traveler",
    "Contract" + CodeSeparator + "Long-term contract booking",
    "Transient-Party" + CodeSeparator + "Group of individuals",
    "Group" + CodeSeparator + "Large group booking"
  ]

  const MonthOptions: seq<string> := [
    "January", "February", "March", "April", "May", "June",
    "July", "August", "September", "October", "November", "December"
  ]

  const DefaultCountry: string := "PRT"

  /** The short codes the classifier was trained on, in the order of the options
      they belong to: an explicit display-to-code table. */
  const MealCodes: seq<string> := ["BB", "HB", "FB", "SC"]
  const SegmentCodes: seq<string> := ["Direct", "Corporate", "Online TA", "Offline TA/TO"]
  const DepositCodes: seq<string> := ["No Deposit", "Non Refund", "Refundable"]
  const CustomerCodes: seq<string> := ["Transient", "Contract", "Transient-Party", "Group"]

  /** The raw selections of one form submission. */
  datatype BookingInput = BookingInput(
    leadTime: int,
    adults: int,
    children: int,
    babies: int,
    mealDisplay: string,
    segmentDisplay: string,
    depositDisplay: string,
    customerDisplay: string,
    arrivalMonth: string,
    country: string)

  /** What the widgets can hand out: numbers within their bounds, one of the listed
      options in every drop-down, and any text at all for the country. */
  predicate IsFormInput(b: BookingInput)
    ensures IsFormInput(b) ==>
      0 <= b.leadTime <= 500 && 1 <= b.adults <= 5 && 0 <= b.children <= 5 && 0 <= b.babies <= 2
  {
    && Accepts(LeadTimeWidget, b.leadTime)
    && Accepts(AdultsWidget, b.adults)
    && Accepts(ChildrenWidget, b.children)
    && Accepts(BabiesWidget, b.babies)
    && b.mealDisplay in MealOptions
    && b.segmentDisplay in SegmentOptions
    && b.depositDisplay in DepositOptions
    && b.customerDisplay in CustomerOptions
    && b.arrivalMonth in MonthOptions
  }

  /** The form as first shown: every number widget at its initial value, every
      drop-down on its first option, the country field pre-filled. */
  function InitialInput(): (b: BookingInput)
    ensures IsFormInput(b)
  {
    BookingInput(
      LeadTimeWidget.initial, AdultsWidget.initial, ChildrenWidget.initial, BabiesWidget.initial,
      MealOptions[0], SegmentOptions[0], DepositOptions[0], CustomerOptions[0],
      MonthOptions[0], DefaultCountry)
  }

  // ---------------- normalisation ----------------

  /** The ten user-derived values, with each display string cut down to its code. */
  datatype UserFields = UserFields(
    leadTime: int,
    adults: int,
    children: int,
    babies: int,
    meal: string,
    marketSegment: string,
    depositType: string,
    customerType: string,
    arrivalMonth: string,
    country: string)

  /** The four code extractions; numbers, month and country pass through. */
  function Normalise(b: BookingInput): (u: UserFields)
    ensures u.leadTime == b.leadTime && u.adults == b.adults
    ensures u.children == b.children && u.babies == b.babies
    ensures u.arrivalMonth == b.arrivalMonth && u.country == b.country
    ensures IsFirstPiece(b.mealDisplay, MealSeparator, u.meal)
    ensures IsFirstPiece(b.segmentDisplay, CodeSeparator, u.marketSegment)
    ensures IsFirstPiece(b.depositDisplay, CodeSeparator, u.depositType)
    ensures IsFirstPiece(b.customerDisplay, CodeSeparator, u.customerType)
  {
    var u := UserFields(
      b.leadTime, b.adults, b.children, b.babies,
      SplitFirst(b.mealDisplay, MealSeparator),
      SplitFirst(b.segmentDisplay, CodeSeparator),
      SplitFirst(b.depositDisplay, CodeSeparator),
      SplitFirst(b.customerDisplay, CodeSeparator),
      b.arrivalMonth, b.country);
    SplitFirstIsFirstPiece(b.mealDisplay, MealSeparator, u.meal);
    SplitFirstIsFirstPiece(b.segmentDisplay, CodeSeparator, u.marketSegment);
    SplitFirstIsFirstPiece(b.depositDisplay, CodeSeparator, u.depositType);
    SplitFirstIsFirstPiece(b.customerDisplay, CodeSeparator, u.customerType);
    u
  }

  /** Cutting an option at the first single space gives its code when the code
      holds no space. */
  lemma MealCodeOf(code: string, description: string)
    requires ' ' !in code
    ensures SplitFirst(code + CodeSeparator + description, MealSeparator) == code
  {
    assert code + CodeSeparator + description == code + MealSeparator + ([EnDash, ' '] + description);
    CharFreeCode(code, ' ');
    SplitFirstOfCoded(code, MealSeparator, [EnDash, ' '] + description);
  }

  /** Cutting an option at " – " gives its code when the code holds no en dash;
      spaces and ASCII hyphens inside the code are kept. */
  lemma DashCodeOf(code: string, description: string)
    requires EnDash !in code
    ensures SplitFirst(code + CodeSeparator + description, CodeSeparator) == code
  {
    MiddleCharFreeCode(code, ' ', EnDash);
    SplitFirstOfCoded(code, CodeSeparator, description);
  }

  /** Every meal option yields its code: the prefix before the first space. */
  lemma MealOptionCodes()
    ensures |MealOptions| == |MealCodes|
    ensures forall i :: 0 <= i < |MealOptions| ==> SplitFirst(MealOptions[i], MealSeparator) == MealCodes[i]
  {
    forall i | 0 <= i < |MealOptions|
      ensures SplitFirst(MealOptions[i], MealSeparator) == MealCodes[i]
    {
      if i == 0 {
        MealCodeOf("BB", "Bed & Breakfast");
      } else if i == 1 {
        MealCodeOf("HB", "Half Board (Breakfast + Dinner)");
      } else if i == 2 {
        MealCodeOf("FB", "Full Board (All meals included)");
      } else {
        MealCodeOf("SC", "Self Catering (No meals)");
      }
    }
  }


  /** Every market-segment option yields its code, multi-word codes intact. */
  lemma SegmentOptionCodes()
    ensures |SegmentOptions| == |SegmentCodes|
    ensures forall i :: 0 <= i < |SegmentOptions| ==> SplitFirst(SegmentOptions[i], CodeSeparator) == SegmentCodes[i]
  {
    forall i | 0 <= i < |SegmentOptions|
      ensures SplitFirst(SegmentOptions[i], CodeSeparator) == SegmentCodes[i]
    {
      if i == 0 {
        DashCodeOf("Direct", "Booked directly with the hotel");
      } else if i == 1 {
        DashCodeOf("Corporate", "Company or business booking");
      } else if i == 2 {
        DashCodeOf("Online TA", "Online travel website");
      } else {
        DashCodeOf("Offline TA/TO", "Travel agent or tour operator");
      }
    }
  }


  /** The multi-word segment codes depend on the " – " separator: a cut at the
      first single space, as the meal field does, would lose their second word. */
  lemma SegmentNeedsDashSeparator()
    ensures SplitFirst(SegmentOptions[2], MealSeparator) == "Online"
    ensures SplitFirst(SegmentOptions[3], MealSeparator) == "Offline"
    ensures SplitFirst(SegmentOptions[2], MealSeparator) != SplitFirst(SegmentOptions[2], CodeSeparator)
    ensures SplitFirst(SegmentOptions[3], MealSeparator) != SplitFirst(SegmentOptions[3], CodeSeparator)
  {
    SegmentOptionCodes();
    var online := "TA" + CodeSeparator + "Online travel website";
    assert SegmentOptions[2] == "Online" + MealSeparator + online;
    CharFreeCode("Online", ' ');
    SplitFirstOfCoded("Online", MealSeparator, online);
    var offline := "TA/TO" + CodeSeparator + "Travel agent or tour operator";
    assert SegmentOptions[3] == "Offline" + MealSeparator + offline;
    CharFreeCode("Offline", ' ');
    SplitFirstOfCoded("Offline", MealSeparator, offline);
  }

  /** Every deposit option yields its code. */
  lemma DepositOptionCodes()
    ensures |DepositOptions| == |DepositCodes|
    ensures forall i :: 0 <= i < |DepositOptions| ==> SplitFirst(DepositOptions[i], CodeSeparator) == DepositCodes[i]
  {
    forall i | 0 <= i < |DepositOptions|
      ensures SplitFirst(DepositOptions[i], CodeSeparator) == DepositCodes[i]
    {
      if i == 0 {
        DashCodeOf("No Deposit", "Nothing paid in advance");
      } else if i == 1 {
        DashCodeOf("Non Refund", "Advance payment, not refundable");
      } else {
        DashCodeOf("Refundable", "Advance payment, refundable");
      }
    }
  }


  /** Distinct deposit options give distinct codes. */
  lemma DepositCodesDistinct()
    ensures forall i, j :: 0 <= i < |DepositOptions| && 0 <= j < |DepositOptions| && i != j ==>
      SplitFirst(DepositOptions[i], CodeSeparator) != SplitFirst(DepositOptions[j], CodeSeparator)
  {
    DepositOptionCodes();
    assert DepositCodes[0] != DepositCodes[1] by {
      assert DepositCodes[0][2] != DepositCodes[1][2];
    }
    assert DepositCodes[0] != DepositCodes[2] && DepositCodes[1] != DepositCodes[2];
  }

  /** Every customer option yields its code; the ASCII hyphen in
      "Transient-Party" is not the en dash, so that code survives whole. */
  lemma CustomerOptionCodes()
    ensures |CustomerOptions| == |CustomerCodes|
    ensures forall i :: 0 <= i < |CustomerOptions| ==> SplitFirst(CustomerOptions[i], CodeSeparator) == CustomerCodes[i]
  {
    forall i | 0 <= i < |CustomerOptions|
      ensures SplitFirst(CustomerOptions[i], CodeSeparator) == CustomerCodes[i]
    {
      if i == 0 {
        DashCodeOf("Transient", "Individual traveler");
      } else if i == 1 {
        DashCodeOf("Contract", "Long-term contract booking");
      } else if i == 2 {
        DashCodeOf("Transient-Party", "Group of individuals");
      } else {
        DashCodeOf("Group", "Large group booking");
      }
    }
  }


  /** Cutting "Transient-Party – ..." at an ASCII hyphen would stop at
      "Transient"; only the en dash separates code from description. */
  lemma HyphenIsNotSeparator()
    ensures SplitFirst(CustomerOptions[2], "-") == "Transient"
    ensures SplitFirst(CustomerOptions[2], CodeSeparator) == "Transient-Party"
  {
    CustomerOptionCodes();
    var party := "Party" + CodeSeparator + "Group of individuals";
    assert CustomerOptions[2] == "Transient" + "-" + party;
    CharFreeCode("Transient", '-');
    SplitFirstOfCoded("Transient", "-", party);
  }

  /** For every input the form can produce, each code is the one listed for the
      selected option (so it is one of the listed codes), and the numbers keep
      their widget bounds. */
  lemma NormaliseFormInput(b: BookingInput, u: UserFields)
    requires IsFormInput(b) && u == Normalise(b)
    ensures forall i :: 0 <= i < |MealOptions| && b.mealDisplay == MealOptions[i] ==> u.meal == MealCodes[i]
    ensures forall i :: 0 <= i < |SegmentOptions| && b.segmentDisplay == SegmentOptions[i] ==> u.marketSegment == SegmentCodes[i]
    ensures forall i :: 0 <= i < |DepositOptions| && b.depositDisplay == DepositOptions[i] ==> u.depositType == DepositCodes[i]
    ensures forall i :: 0 <= i < |CustomerOptions| && b.customerDisplay == CustomerOptions[i] ==> u.customerType == CustomerCodes[i]
    ensures u.meal in MealCodes && u.marketSegment in SegmentCodes
    ensures u.depositType in DepositCodes && u.customerType in CustomerCodes
    ensures u.arrivalMonth in MonthOptions
    ensures 0 <= u.leadTime <= 500 && 1 <= u.adults <= 5 && 0 <= u.children <= 5 && 0 <= u.babies <= 2
  {
    MealOptionCodes();
    SegmentOptionCodes();
    DepositOptionCodes();
    CustomerOptionCodes();
  }

  // ---------------- scenarios ----------------

  /** The form as first shown normalises to the first code of every list. */
  lemma InitialInputCodes()
    ensures Normalise(InitialInput()) ==
      UserFields(50, 2, 0, 0, "BB", "Direct", "No Deposit", "Transient", "January", "PRT")
  {
    MealOptionCodes();
    SegmentOptionCodes();
    DepositOptionCodes();
    CustomerOptionCodes();
  }

  /** Smallest numbers and an empty country: everything passes through. */
  lemma LowerBoundaryScenario(b: BookingInput)
    requires b == BookingInput(0, 1, 0, 0, MealOptions[3], SegmentOptions[0], DepositOptions[0],
                               CustomerOptions[3], "January", "")
    ensures IsFormInput(b)
    ensures Normalise(b) == UserFields(0, 1, 0, 0, "SC", "Direct", "No Deposit", "Group", "January", "")
  {
    MealOptionCodes();
    SegmentOptionCodes();
    DepositOptionCodes();
    CustomerOptionCodes();
  }
}
