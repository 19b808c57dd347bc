/** The skill detail page: finding the listing whose id matches the route
    parameter, the like toggle, and the booking form. The listing data is
    given to the page as a value; the request that fetches it is not part of
    the model. */
module SkillDetailsPage {
  import opened Text
  import opened Ui

  const LoadFailed := "Failed to load skill details"
  const AddedToFavorites := "\U{1F496} Added to favorites"
  const RemovedFromFavorites := "\U{1F494} Removed from favorites"
  const BookingIncomplete := "Please enter your name and email."
  const BookingSent := "\U{2705} Booking request sent! We'll reach out soon."

  /** A listing's `skillId` as it appears in the data: an integer, a string,
      or no such property at all. */
  datatype Key = Num(n: int) | Str(s: string) | Absent

  /** A listing record; only the id takes part in the page's logic. */
  datatype Skill = Skill(skillId: Key, skillName: string)

  /** The booking form's two fields. */
  datatype Booking = Booking(name: string, email: string)

  /** `String(skillId)`. */
  function KeyString(k: Key): (r: string)
    ensures k.Str? ==> r == k.s
    ensures k.Num? ==> |r| > 0 && (r[0] == '-' <==> k.n < 0)
    ensures k.Absent? ==> r == "undefined"
  {
    match k
    case Num(n) => IntToString(n)
    case Str(s) => s
    case Absent => "undefined"
  }

  /** `String(s.skillId) === String(id)`, with the route parameter `id`
      already a string. */
  predicate Matches(s: Skill, id: string) {
    KeyString(s.skillId) == id
  }

  /** The position `data.find` stops at: the first matching listing, or
      `|data|` when none matches. */
  function FirstMatch(data: seq<Skill>, id: string): (k: nat)
    ensures k <= |data|
    ensures forall j :: 0 <= j < k ==> !Matches(data[j], id)
    ensures k < |data| ==> Matches(data[k], id)
  {
    if data == [] then 0
    else if Matches(data[0], id) then 0
    else
      var k := 1 + FirstMatch(data[1..], id);
      assert forall j :: 1 <= j < k ==> data[j] == data[1..][j - 1];
      k
  }

  /** `data.find((s) => String(s.skillId) === String(id))`. */
  function FindSkill(data: seq<Skill>, id: string): Option<Skill> {
    var k := FirstMatch(data, id);
    if k < |data| then Some(data[k]) else None
  }

  /** The lookup finds a listing exactly when one matches; what it finds
      matches, and no listing before it does. */
  lemma FindSkillIsFirstMatch(data: seq<Skill>, id: string)
    ensures FindSkill(data, id).None? <==> forall j :: 0 <= j < |data| ==> !Matches(data[j], id)
    ensures FindSkill(data, id).Some? ==>
      exists k :: 0 <= k < |data| && data[k] == FindSkill(data, id).value
        && Matches(data[k], id) && forall j :: 0 <= j < k ==> !Matches(data[j], id)
  {
    var k := FirstMatch(data, id);
    if k < |data| {
      assert data[k] == FindSkill(data, id).value;
    }
  }

  /** Of two listings with the same id, the earlier one is found. */
  lemma EarlierDuplicateWins(a: Skill, b: Skill, rest: seq<Skill>, id: string)
    requires Matches(a, id) && Matches(b, id)
    ensures FindSkill([a, b] + rest, id) == Some(a)
  {
  }

  /** `String()` erases the difference between the number 7 and the
      string "7": either id is found by the route "/skills/7". */
  lemma NumberAndTextIdsAgree(n: int)
    ensures Matches(Skill(Num(n), ""), IntToString(n)) && Matches(Skill(Str(IntToString(n)), ""), IntToString(n))
  {
  }

  /** A route parameter matches at most one numeric id, and the numeral of
      that id, read back as a decimal number, is the id itself. */
  lemma RouteMatchesOneNumber(a: int, b: int, id: string)
    requires Matches(Skill(Num(a), ""), id) && Matches(Skill(Num(b), ""), id)
    ensures a == b
    ensures a >= 0 ==> DecimalValue(id) == a
  {
    IntToStringInjective(a, b);
    if a >= 0 {
      NatToStringValue(a);
    }
  }

  /** A route parameter with a leading zero, such as "07", never finds a
      listing whose id is a number. */
  lemma PaddedIdMissesNumericIds(n: int, name: string, id: string)
    requires |id| > 1 && id[0] == '0'
    ensures !Matches(Skill(Num(n), name), id)
  {
    if n >= 0 {
      assert IntToString(n) == NatToString(n);
    }
  }

  class SkillListingDetails {
    /** The listing shown, `null` until found. */
    var skill: Option<Skill>
    var loading: bool
    var toast: string
    var isLiked: bool
    var booking: Booking

    /** The page mounts loading, with nothing found, no message, not liked
        and an empty booking form. */
    constructor ()
      ensures skill == None && loading && toast == "" && !isLiked && booking == Booking("", "")
    {
      skill := None;
      loading := true;
      toast := "";
      isLiked := false;
      booking := Booking("", "");
    }

    /** `fetchSkill` once the listing data is in hand (`None` when the
        request fails or its answer is not usable). A matching listing is
        shown; otherwise the failure message is set and the listing shown
        before stays. Either way `loading` ends. */
    method LoadSkill(fetched: Option<seq<Skill>>, id: string)
      modifies this`skill, this`toast, this`loading
      ensures !loading
      ensures fetched.Some? && FindSkill(fetched.value, id).Some? ==>
        skill == FindSkill(fetched.value, id) && toast == old(toast)
      ensures fetched.None? || FindSkill(fetched.value, id).None? ==>
        skill == old(skill) && toast == LoadFailed
    {
      if fetched.Some? {
        var found := FindSkill(fetched.value, id);
        if found.Some? {
          skill := found;
        } else {
          toast := LoadFailed;
        }
      } else {
        toast := LoadFailed;
      }
      loading := false;
    }

    /** `toggleLike`: the flag flips and the message is chosen by the value
        it had before the click. */
    method ToggleLike()
      modifies this`isLiked, this`toast
      ensures isLiked == !old(isLiked)
      ensures toast == if old(isLiked) then RemovedFromFavorites else AddedToFavorites
    {
      toast := if !isLiked then AddedToFavorites else RemovedFromFavorites;
      isLiked := !isLiked;
    }

    /** The timer that hides the message. */
    method ClearToast()
      modifies this`toast
      ensures toast == ""
    {
      toast := "";
    }

    /** `handleBookingSubmit`: a name or e-mail that is empty after trimming
        is refused and the form kept; otherwise the confirmation is shown and
        both fields are emptied. */
    method HandleBookingSubmit()
      modifies this`toast, this`booking
      ensures IsBlank(old(booking.name)) || IsBlank(old(booking.email)) ==>
        toast == BookingIncomplete && booking == old(booking)
      ensures !IsBlank(old(booking.name)) && !IsBlank(old(booking.email)) ==>
        toast == BookingSent && booking == Booking("", "")
    {
      if IsBlank(booking.name) || IsBlank(booking.email) {
        toast := BookingIncomplete;
        return;
      }
      toast := BookingSent;
      booking := Booking("", "");
    }

    /** The name input's `onChange`; the e-mail is kept. */
    method SetBookingName(value: string)
      modifies this`booking
      ensures booking == Booking(value, old(booking.email))
    {
      booking := booking.(name := value);
    }

    /** The e-mail input's `onChange`; the name is kept. */
    method SetBookingEmail(value: string)
      modifies this`booking
      ensures booking == Booking(old(booking.name), value)
    {
      booking := booking.(email := value);
    }
  }

  /** Two clicks on the heart leave the like as it was, and the second
      message is the opposite of the first. */
  method LikeTwice(page: SkillListingDetails) returns (first: string, second: string)
    modifies page
    ensures page.isLiked == old(page.isLiked)
    ensures first == (if old(page.isLiked) then RemovedFromFavorites else AddedToFavorites)
    ensures second == (if old(page.isLiked) then AddedToFavorites else RemovedFromFavorites)
    ensures first != second
  {
    page.ToggleLike();
    first := page.toast;
    page.ToggleLike();
    second := page.toast;
  }
}
