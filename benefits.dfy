/** Identity verification and the benefit catalogue it unlocks: a table from
    verification category to its list of partner offers, the confirm action
    that opens every offer of one category in place, and the flattened list
    the benefits panel renders. */
module Benefits {
  import opened Text

  /** One offer of the table; `locked` is the only field that ever changes.
      The logo URL, used only as an image source, is not kept. */
  datatype Benefit = Benefit(name: string, discount: string, locked: bool)

  /** `{ ...benefit, category }`: an offer copied out with its category. */
  datatype TaggedBenefit = TaggedBenefit(name: string, discount: string, locked: bool, category: string)

  type Table = map<string, seq<Benefit>>

  /** The category keys in the order the table literal declares them, which
      is the order Object.keys returns them in. */
  const CategoryOrder: seq<string> := [
    "student", "teacher", "military", "healthcare", "senior", "government",
    "firstresponder", "freelancer", "startup", "parent", "veteran", "disabled",
    "nonprofit", "lowincome", "athlete", "artist"
  ]

  // The offer lists, one per category: the student offers start open,
  // every other one locked.

  const StudentOffers: seq<Benefit> := [
    Benefit("Spotify Premium", "50% OFF Student", false),
    Benefit("Apple Music", "Student Plan 59k", false),
    Benefit("CGV Cinemas", "30% OFF", false),
    Benefit("California Fitness", "Giảm 40%", false)
  ]

  const TeacherOffers: seq<Benefit> := [
    Benefit("Fahasa", "20% OFF Sách", true),
    Benefit("Thế Giới Di Động", "15% OFF Laptop", true),
    Benefit("Microsoft Office", "Miễn phí", true)
  ]

  const MilitaryOffers: seq<Benefit> := [
    Benefit("VPBank Vay Ưu Đãi", "Lãi suất 0.5%", true),
    Benefit("Bảo Việt Insurance", "Giảm 40%", true),
    Benefit("Vietjet Air", "25% OFF", true)
  ]

  const HealthcareOffers: seq<Benefit> := [
    Benefit("Vinpearl Resort", "25% OFF", true),
    Benefit("Thien Spa", "30% OFF", true),
    Benefit("Medicare Plus", "Miễn phí khám", true)
  ]

  const SeniorOffers: seq<Benefit> := [
    Benefit("Vietravel", "35% OFF Tour", true),
    Benefit("Bệnh viện Vinmec", "Giảm 50% khám", true),
    Benefit("Grab", "Miễn phí 20 chuyến", true)
  ]

  const GovernmentOffers: seq<Benefit> := [
    Benefit("Agribank Vay Nhà", "Lãi suất 4.5%", true),
    Benefit("Prudential", "Giảm 30%", true),
    Benefit("Honda Việt Nam", "Trả góp 0%", true)
  ]

  const FirstResponderOffers: seq<Benefit> := [
    Benefit("Decathlon", "40% OFF", true),
    Benefit("Bảo Minh Insurance", "Miễn phí BH", true),
    Benefit("The Coffee House", "50% OFF", true)
  ]

  const FreelancerOffers: seq<Benefit> := [
    Benefit("Toong Coworking", "30% OFF", true),
    Benefit("Adobe Creative Cloud", "40% OFF", true),
    Benefit("Udemy", "Giảm 50%", true)
  ]

  const StartupOffers: seq<Benefit> := [
    Benefit("AWS Credits", "$5000 Credits", true),
    Benefit("Google Cloud", "$3000 Credits", true),
    Benefit("Notion", "Miễn phí 1 năm", true)
  ]

  const ParentOffers: seq<Benefit> := [
    Benefit("Bibo Mart", "25% OFF", true),
    Benefit("Pampers", "Giảm 30%", true),
    Benefit("Kids Plaza", "20% OFF", true)
  ]

  const VeteranOffers: seq<Benefit> := [
    Benefit("Vietcombank Vay 0%", "Lãi suất 0%", true),
    Benefit("Manulife", "Miễn phí BH", true),
    Benefit("Vietnam Airlines", "50% OFF", true)
  ]

  const DisabledOffers: seq<Benefit> := [
    Benefit("Bệnh viện FV", "Miễn phí khám", true),
    Benefit("Grab Wheelchair", "Miễn phí 50 chuyến", true),
    Benefit("Thiết bị Y tế", "Giảm 60%", true)
  ]

  const NonprofitOffers: seq<Benefit> := [
    Benefit("Microsoft 365", "Miễn phí", true),
    Benefit("Google Workspace", "Miễn phí", true),
    Benefit("Canva Pro", "Miễn phí", true)
  ]

  const LowIncomeOffers: seq<Benefit> := [
    Benefit("Thực phẩm Co.op", "Voucher 500k", true),
    Benefit("Bệnh viện Nhân Dân", "Miễn phí", true),
    Benefit("Học bổng FPT", "100% học phí", true)
  ]

  const AthleteOffers: seq<Benefit> := [
    Benefit("California Fitness", "Miễn phí 6 tháng", true),
    Benefit("Whey Protein Store", "40% OFF", true),
    Benefit("Decathlon", "35% OFF", true)
  ]

  const ArtistOffers: seq<Benefit> := [
    Benefit("Adobe Creative Cloud", "60% OFF", true),
    Benefit("Canva Pro", "Miễn phí 1 năm", true),
    Benefit("Wacom Tablet", "45% OFF", true)
  ]

  /** benefitsData as first loaded. */
  const InitialTable: Table := map[
    "student" := StudentOffers,
    "teacher" := TeacherOffers,
    "military" := MilitaryOffers,
    "healthcare" := HealthcareOffers,
    "senior" := SeniorOffers,
    "government" := GovernmentOffers,
    "firstresponder" := FirstResponderOffers,
    "freelancer" := FreelancerOffers,
    "startup" := StartupOffers,
    "parent" := ParentOffers,
    "veteran" := VeteranOffers,
    "disabled" := DisabledOffers,
    "nonprofit" := NonprofitOffers,
    "lowincome" := LowIncomeOffers,
    "athlete" := AthleteOffers,
    "artist" := ArtistOffers
  ]

  /** The modal heading for each verification type. */
  const TypeNames: map<string, string> := map[
    "student" := "Học sinh / Sinh viên",
    "teacher" := "Giáo viên",
    "military" := "Quân nhân",
    "healthcare" := "Y tế",
    "senior" := "Người cao tuổi (60+)",
    "government" := "Công chức",
    "firstresponder" := "Cứu hộ / Cảnh sát",
    "freelancer" := "Freelancer",
    "startup" := "Nhân viên Startup",
    "parent" := "Phụ huynh",
    "veteran" := "Cựu chiến binh",
    "disabled" := "Người khuyết tật",
    "nonprofit" := "Tổ chức phi lợi nhuận",
    "lowincome" := "Thu nhập thấp",
    "athlete" := "Vận động viên",
    "artist" := "Nghệ sĩ / Sáng tạo"
  ]

  /** The table's keys are the sixteen categories. */
  lemma InitialKeys()
    ensures InitialTable.Keys == set c | c in CategoryOrder
  {
  }

  /** At load time only the student offers are open. */
  lemma InitialLocks()
    ensures forall c, k :: c in InitialTable && 0 <= k < |InitialTable[c]| ==>
      (InitialTable[c][k].locked <==> c != "student")
  {
  }

  // ---------------------------------------------------------------------
  // The unlock, as a function on tables.

  /** Every offer of the list with `locked` cleared, nothing else touched. */
  function UnlockAll(bs: seq<Benefit>): (r: seq<Benefit>)
    ensures |r| == |bs|
    ensures forall k :: 0 <= k < |r| ==> !r[k].locked
    ensures forall k :: 0 <= k < |r| ==>
      r[k].name == bs[k].name && r[k].discount == bs[k].discount
  {
    seq(|bs|, k requires 0 <= k < |bs| => bs[k].(locked := false))
  }

  /** The table after confirming `category`: that category's offers opened,
      a category the table does not hold ignored. */
  function Unlocked(t: Table, category: string): (r: Table)
    ensures r.Keys == t.Keys
    ensures forall c :: c in r ==> |r[c]| == |t[c]|
  {
    if category in t then t[category := UnlockAll(t[category])] else t
  }

  /** Confirming touches only the confirmed category: the keys stay the
      same, every other category keeps its list, the confirmed one keeps
      its length and its offers' names and discounts, and all its
      offers end up open. An unknown category leaves the table as it was. */
  lemma UnlockedFrame(t: Table, category: string)
    ensures Unlocked(t, category).Keys == t.Keys
    ensures forall c :: c in t && c != category ==> Unlocked(t, category)[c] == t[c]
    ensures category in t ==> |Unlocked(t, category)[category]| == |t[category]|
    ensures category in t ==> forall k :: 0 <= k < |t[category]| ==>
      var b, b' := t[category][k], Unlocked(t, category)[category][k];
      !b'.locked && b'.name == b.name && b'.discount == b.discount
    ensures category !in t ==> Unlocked(t, category) == t
  {
  }

  /** Nothing is ever locked again: an open offer stays open whatever
      category is confirmed. */
  lemma UnlockedMonotone(t: Table, category: string)
    ensures forall c, k :: c in t && 0 <= k < |t[c]| && !t[c][k].locked ==>
      !Unlocked(t, category)[c][k].locked
  {
  }

  /** Confirming the same category twice is the same as confirming it once. */
  lemma UnlockedIdempotent(t: Table, category: string)
    ensures Unlocked(Unlocked(t, category), category) == Unlocked(t, category)
  {
    if category in t {
      var once := UnlockAll(t[category]);
      assert UnlockAll(once) == once;
    }
  }

  /** The order in which categories are confirmed does not matter. */
  lemma UnlockedCommute(t: Table, c: string, d: string)
    ensures Unlocked(Unlocked(t, c), d) == Unlocked(Unlocked(t, d), c)
  {
    if c == d {
    } else if c in t && d in t {
      assert Unlocked(Unlocked(t, c), d) == t[c := UnlockAll(t[c])][d := UnlockAll(t[d])];
    }
  }

  // ---------------------------------------------------------------------
  // The flattened list the benefits panel renders.

  function Tagged(bs: seq<Benefit>, category: string): (r: seq<TaggedBenefit>)
    ensures |r| == |bs|
    ensures forall k :: 0 <= k < |r| ==> r[k].category == category
  {
    seq(|bs|, k requires 0 <= k < |bs| =>
      TaggedBenefit(bs[k].name, bs[k].discount, bs[k].locked, category))
  }

  /** All offers of the listed categories, category by category and within
      a category in list order, each tagged with its category. */
  function Flatten(categories: seq<string>, t: Table): (r: seq<TaggedBenefit>)
    requires forall k :: 0 <= k < |categories| ==> categories[k] in t
    ensures forall k :: 0 <= k < |r| ==> r[k].category in categories
  {
    if categories == [] then []
    else
      var last := categories[|categories| - 1];
      Flatten(categories[..|categories| - 1], t) + Tagged(t[last], last)
  }

  /** Marks every flattened offer of `category` open. */
  function OpenTagged(items: seq<TaggedBenefit>, category: string): seq<TaggedBenefit> {
    seq(|items|, k requires 0 <= k < |items| =>
      if items[k].category == category then items[k].(locked := false) else items[k])
  }

  lemma OpenTaggedAppend(a: seq<TaggedBenefit>, b: seq<TaggedBenefit>, category: string)
    ensures OpenTagged(a + b, category) == OpenTagged(a, category) + OpenTagged(b, category)
  {
  }

  /** Tagging an opened list gives the tagged list with that category's
      entries opened. */
  lemma TaggedUnlocked(t: Table, last: string, category: string)
    requires last in t
    ensures Tagged(Unlocked(t, category)[last], last) == OpenTagged(Tagged(t[last], last), category)
  {
  }

  /** Re-rendering after a confirm shows the same list as before, in the
      same order, with exactly the confirmed category's offers now open. */
  lemma {:induction false} FlattenUnlocked(categories: seq<string>, t: Table, category: string)
    requires forall k :: 0 <= k < |categories| ==> categories[k] in t
    ensures Flatten(categories, Unlocked(t, category)) == OpenTagged(Flatten(categories, t), category)
  {
    if categories != [] {
      var init, last := categories[..|categories| - 1], categories[|categories| - 1];
      FlattenUnlocked(init, t, category);
      TaggedUnlocked(t, last, category);
      OpenTaggedAppend(Flatten(init, t), Tagged(t[last], last), category);
    }
  }

  /** The action button of a rendered offer: disabled with a padlock label
      when the offer is locked, an enabled "claim" button otherwise. */
  datatype ClaimButton = ClaimButton(disabled: bool, caption: string)

  function ButtonFor(b: TaggedBenefit): (r: ClaimButton)
    ensures r.disabled <==> b.locked
  {
    if b.locked then ClaimButton(true, "🔒 Khóa") else ClaimButton(false, "Nhận ưu đãi")
  }

  /** After confirming a category, every rendered offer of it has an enabled
      claim button. */
  lemma ConfirmedButtons(categories: seq<string>, t: Table, category: string)
    requires forall k :: 0 <= k < |categories| ==> categories[k] in t
    ensures forall k :: 0 <= k < |Flatten(categories, Unlocked(t, category))| ==>
      var item := Flatten(categories, Unlocked(t, category))[k];
      item.category == category ==> ButtonFor(item) == ClaimButton(false, "Nhận ưu đãi")
  {
    FlattenUnlocked(categories, t, category);
  }

  /** The modal heading for a card's data-type: unknown or missing types
      leave the heading empty, and only they do. */
  function ModalHeading(verifyType: Option<string>): (r: string)
    ensures r != "" <==> verifyType.Some? && verifyType.value in TypeNames
    ensures r != "" ==> r == TypeNames[verifyType.value]
  {
    if verifyType.Some? && verifyType.value in TypeNames then TypeNames[verifyType.value] else ""
  }

  // ---------------------------------------------------------------------
  // The state the verification screen keeps.

  class BenefitsTable {
    /** The table's keys, in Object.keys order. */
    var categories: seq<string>
    /** benefitsData itself. */
    var entries: Table
    /** Whether the verification modal carries the class `active`. */
    var modalOpen: bool
    /** The modal's data-verify-type attribute; None while it was never set. */
    var verifyType: Option<string>
    /** The modal heading's text. */
    var heading: string

    predicate Valid()
      reads this
    {
      && (forall c :: c in categories ==> c in entries)
      && (forall c :: c in entries ==> c in categories)
    }

    constructor ()
      ensures Valid()
      ensures categories == CategoryOrder && entries == InitialTable
      ensures !modalOpen && verifyType == None && heading == ""
    {
      categories := CategoryOrder;
      entries := InitialTable;
      modalOpen := false;
      verifyType := None;
      heading := "";
    }

    /** A click on a verification card with the given data-type (None when
        the card has no such attribute, which the modal then records as the
        string "null"). */
    method OpenModal(cardType: Option<string>)
      modifies this
      ensures heading == ModalHeading(cardType)
      ensures modalOpen
      ensures verifyType == Some(if cardType.Some? then cardType.value else "null")
      ensures categories == old(categories) && entries == old(entries)
    {
      heading := ModalHeading(cardType);
      modalOpen := true;
      verifyType := Some(if cardType.Some? then cardType.value else "null");
    }

    /** The close button, or a click on the modal's backdrop. */
    method CloseModal()
      modifies this
      ensures !modalOpen
      ensures categories == old(categories) && entries == old(entries)
      ensures verifyType == old(verifyType) && heading == old(heading)
    {
      modalOpen := false;
    }

    /** Clears `locked` on the offers of one known category, one offer at a
        time. */
    method UnlockCategory(category: string)
      requires Valid() && category in entries
      modifies this
      ensures Valid()
      ensures entries == Unlocked(old(entries), category)
      ensures categories == old(categories) && modalOpen == old(modalOpen)
      ensures verifyType == old(verifyType) && heading == old(heading)
    {
      ghost var original := entries[category];
      var i := 0;
      while i < |entries[category]|
        invariant category in entries && |entries[category]| == |original|
        invariant 0 <= i <= |original|
        invariant entries == old(entries)[category := entries[category]]
        invariant forall k :: 0 <= k < i ==> entries[category][k] == original[k].(locked := false)
        invariant forall k :: i <= k < |original| ==> entries[category][k] == original[k]
        invariant categories == old(categories) && modalOpen == old(modalOpen)
        invariant verifyType == old(verifyType) && heading == old(heading)
      {
        var list := entries[category];
        entries := entries[category := list[i := list[i].(locked := false)]];
        i := i + 1;
      }
      assert entries[category] == UnlockAll(original);
    }

    /** The confirm button: the category is the modal's data-verify-type; a
        category the table holds has all its offers opened, anything else
        changes no offer; the modal closes either way. */
    method Confirm()
      requires Valid()
      modifies this
      ensures Valid()
      ensures entries == if old(verifyType).Some? then Unlocked(old(entries), old(verifyType).value) else old(entries)
      ensures !modalOpen
      ensures categories == old(categories) && verifyType == old(verifyType) && heading == old(heading)
    {
      if verifyType.Some? && verifyType.value in entries {
        UnlockCategory(verifyType.value);
      } else if verifyType.Some? {
        UnlockedFrame(entries, verifyType.value);
      }
      modalOpen := false;
    }

    /** The list renderBenefits builds: for each category key in order, for
        each of its offers, a copy tagged with the category. */
    method AllBenefits() returns (all: seq<TaggedBenefit>)
      requires Valid()
      ensures all == Flatten(categories, entries)
    {
      all := [];
      var i := 0;
      while i < |categories|
        invariant 0 <= i <= |categories|
        invariant all == Flatten(categories[..i], entries)
      {
        var category := categories[i];
        var list := entries[category];
        var j := 0;
        while j < |list|
          invariant 0 <= j <= |list|
          invariant all == Flatten(categories[..i], entries) + Tagged(list[..j], category)
        {
          assert Tagged(list[..j + 1], category) == Tagged(list[..j], category) + [Tagged([list[j]], category)[0]];
          all := all + [TaggedBenefit(list[j].name, list[j].discount, list[j].locked, category)];
          j := j + 1;
        }
        assert list[..j] == list;
        assert categories[..i + 1][..i] == categories[..i];
        i := i + 1;
      }
      assert categories[..i] == categories;
    }
  }
}
