/**
 * What the recipe page's review panel (`RecipeReviews`) shows for a list of
 * reviews: nothing for an empty list, otherwise a caption with the Croatian
 * count word and one entry per review with its avatar, author, five stars,
 * the edit control for the review's own author and the review text.
 */
module RecipeReviews {
  import opened Wrappers
  import JsText

  /** A review with its author, as the page receives it. An absent text
      (`null`) is `None`. */
  datatype Review = Review(
    id: string,
    userId: string,
    userName: Option<string>,
    userImage: Option<string>,
    rating: int,
    content: Option<string>)

  /** JavaScript truthiness of an optional string: present and non-empty. */
  predicate Truthy(s: Option<string>) {
    s.Some? && s.value != ""
  }

  // ---------------------------------------------------------------------
  // Count caption

  /** The noun after the review count: "recenzija" for 1, "recenzije" for
      2 to 4, "recenzija" again from 5 on (and for 0). */
  function CountWord(n: nat): string {
    if n == 1 then "recenzija"
    else if n > 1 && n < 5 then "recenzije"
    else "recenzija"
  }

  /** The paucal form is used for exactly two, three and four reviews;
      every other count, 1 included, takes "recenzija". */
  lemma CountWordForms(n: nat)
    ensures CountWord(n) == "recenzije" <==> n == 2 || n == 3 || n == 4
    ensures CountWord(n) == "recenzija" <==> !(n == 2 || n == 3 || n == 4)
  {
  }

  /** The caption: the count, a space and the count word. */
  function Caption(n: nat): string {
    JsText.DecimalOf(n) + " " + CountWord(n)
  }

  // ---------------------------------------------------------------------
  // Stars

  /** `count` stars, star `i` filled exactly when `i < rating`. */
  function StarRow(count: nat, rating: int): (stars: seq<bool>)
    ensures |stars| == count
    ensures forall i :: 0 <= i < count ==> (stars[i] <==> i < rating)
  {
    if count == 0 then [] else StarRow(count - 1, rating) + [count - 1 < rating]
  }

  /** The five stars of a review. */
  function Stars(rating: int): seq<bool> {
    StarRow(5, rating)
  }

  /** How many stars are filled. */
  function Filled(stars: seq<bool>): nat {
    if stars == [] then 0 else Filled(stars[..|stars| - 1]) + (if stars[|stars| - 1] then 1 else 0)
  }

  function Clamp(x: int, lo: int, hi: int): int
    requires lo <= hi
  {
    if x < lo then lo else if x > hi then hi else x
  }

  /** Of `count` stars, the rating clamped to `0..count` are filled. */
  lemma {:induction false} StarRowFilled(count: nat, rating: int)
    ensures Filled(StarRow(count, rating)) == Clamp(rating, 0, count)
  {
    if count > 0 {
      var row := StarRow(count, rating);
      assert row[..count - 1] == StarRow(count - 1, rating);
      StarRowFilled(count - 1, rating);
    }
  }

  /** Exactly five stars, `min(max(rating, 0), 5)` of them filled, and every
      filled star comes before every empty one. */
  lemma StarsShape(rating: int)
    ensures |Stars(rating)| == 5
    ensures Filled(Stars(rating)) == Clamp(rating, 0, 5)
    ensures forall i, j :: 0 <= i < j < 5 && Stars(rating)[j] ==> Stars(rating)[i]
  {
    StarRowFilled(5, rating);
  }

  // ---------------------------------------------------------------------
  // Edit control, avatar

  /** `currentUserId && currentUserId === review.userId`. */
  predicate CanEdit(currentUserId: Option<string>, review: Review) {
    Truthy(currentUserId) && currentUserId.value == review.userId
  }

  /** The edit control shows exactly for a signed-in user, on the reviews
      whose author id is theirs and not empty. */
  lemma CanEditIff(currentUserId: Option<string>, review: Review)
    ensures CanEdit(currentUserId, review) <==> review.userId != "" && currentUserId == Some(review.userId)
  {
  }

  /** `String.prototype.toUpperCase` on one character, for Basic Latin,
      Latin-1 and Latin Extended-A (which hold the Croatian letters č, ć, đ,
      š, ž); other characters are kept. A few characters become two. */
  function UpperChar(c: char): (r: string)
    ensures |r| == 1 || |r| == 2
  {
    var n := c as int;
    if 'a' <= c <= 'z' then [(n - 32) as char]
    else if n == 0xB5 then ['\U{039C}']
    else if n == 0xDF then "SS"
    else if 0xE0 <= n <= 0xFE && n != 0xF7 then [(n - 32) as char]
    else if n == 0xFF then ['\U{0178}']
    else if 0x0100 <= n <= 0x012F && n % 2 == 1 then [(n - 1) as char]
    else if n == 0x0131 then "I"
    else if 0x0132 <= n <= 0x0137 && n % 2 == 1 then [(n - 1) as char]
    else if 0x0139 <= n <= 0x0148 && n % 2 == 0 then [(n - 1) as char]
    else if n == 0x0149 then ['\U{02BC}', 'N']
    else if 0x014A <= n <= 0x0177 && n % 2 == 1 then [(n - 1) as char]
    else if 0x0179 <= n <= 0x017E && n % 2 == 0 then [(n - 1) as char]
    else if n == 0x017F then "S"
    else [c]
  }

  /** Upper-casing each character of a string. */
  function Upper(s: string): string {
    if s == [] then [] else UpperChar(s[0]) + Upper(s[1..])
  }

  /** Upper-casing an upper-cased character changes nothing more. */
  lemma UpperCharIdempotent(c: char)
    ensures Upper(UpperChar(c)) == UpperChar(c)
  {
    var r := UpperChar(c);
    if |r| == 1 {
      assert Upper(r) == UpperChar(r[0]) + Upper([]);
    } else {
      assert r[1..][1..] == [];
      assert Upper(r) == UpperChar(r[0]) + (UpperChar(r[1]) + Upper([]));
    }
  }

  /** The Croatian lower-case letters get their upper-case forms. */
  lemma CroatianInitials()
    ensures UpperChar('\U{010D}') == "\U{010C}" && UpperChar('\U{0107}') == "\U{0106}"
    ensures UpperChar('\U{0111}') == "\U{0110}" && UpperChar('\U{0161}') == "\U{0160}"
    ensures UpperChar('\U{017E}') == "\U{017D}"
  {
  }

  /** The avatar's fallback: the author's upper-cased initial, or the
      generic user icon. */
  datatype Fallback = Initial(text: string) | UserIcon

  /** The initial when the author's name is non-empty, the icon otherwise. */
  function AvatarFallback(name: Option<string>): Fallback {
    if Truthy(name) then Initial(UpperChar(name.value[0])) else UserIcon
  }

  /** The icon shows exactly when the name is absent or empty; otherwise
      the initial is the name's first character upper-cased: one or two
      characters already in upper case, and for a Basic Latin lower-case
      first letter its capital. */
  lemma AvatarFallbackShape(name: Option<string>)
    ensures AvatarFallback(name).UserIcon? <==> name.None? || name.value == ""
    ensures AvatarFallback(name).Initial? ==> AvatarFallback(name).text == UpperChar(name.value[0])
    ensures AvatarFallback(name).Initial? ==>
      1 <= |AvatarFallback(name).text| <= 2 && Upper(AvatarFallback(name).text) == AvatarFallback(name).text
    ensures AvatarFallback(name).Initial? && 'a' <= name.value[0] <= 'z' ==>
      AvatarFallback(name).text == [(name.value[0] as int - 32) as char]
  {
    if Truthy(name) {
      UpperCharIdempotent(name.value[0]);
    }
  }

  // ---------------------------------------------------------------------
  // The panel

  /** One review as shown. */
  datatype Entry = Entry(
    key: string,
    image: Option<string>,
    fallback: Fallback,
    name: Option<string>,
    editable: bool,
    stars: seq<bool>,
    text: Option<string>)

  /** The entry of one review: the photo only when there is one, the text
      paragraph only when the text is non-empty. */
  function RenderEntry(review: Review, currentUserId: Option<string>): Entry {
    Entry(
      review.id,
      if Truthy(review.userImage) then review.userImage else None,
      AvatarFallback(review.userName),
      review.userName,
      CanEdit(currentUserId, review),
      Stars(review.rating),
      if Truthy(review.content) then review.content else None)
  }

  /** `reviews.map(...)`. */
  function RenderEntries(reviews: seq<Review>, currentUserId: Option<string>): seq<Entry> {
    if reviews == [] then [] else [RenderEntry(reviews[0], currentUserId)] + RenderEntries(reviews[1..], currentUserId)
  }

  /** One entry per review, in the reviews' order. */
  lemma {:induction false} RenderEntriesInOrder(reviews: seq<Review>, currentUserId: Option<string>)
    ensures |RenderEntries(reviews, currentUserId)| == |reviews|
    ensures forall i :: 0 <= i < |reviews| ==>
      RenderEntries(reviews, currentUserId)[i] == RenderEntry(reviews[i], currentUserId)
    decreases |reviews|
  {
    if reviews != [] {
      RenderEntriesInOrder(reviews[1..], currentUserId);
    }
  }

  /** The panel: its caption and its entries. */
  datatype Panel = Panel(caption: string, entries: seq<Entry>)

  /** `RecipeReviews`: nothing for an empty list, the panel otherwise. */
  function RenderReviews(reviews: seq<Review>, currentUserId: Option<string>): (p: Option<Panel>)
    ensures p.None? <==> reviews == []
  {
    if |reviews| == 0 then None
    else Some(Panel(Caption(|reviews|), RenderEntries(reviews, currentUserId)))
  }

  /** What the panel shows of each review: its stars, its text exactly when
      the text is non-empty, and the edit control exactly on the current
      user's own reviews. */
  lemma PanelShowsEachReview(reviews: seq<Review>, currentUserId: Option<string>, i: nat)
    requires i < |reviews|
    ensures var p := RenderReviews(reviews, currentUserId);
      && p.Some? && |p.value.entries| == |reviews|
      && var e := p.value.entries[i];
      && e.key == reviews[i].id
      && e.stars == Stars(reviews[i].rating)
      && (e.text.Some? <==> Truthy(reviews[i].content))
      && (e.text.Some? ==> e.text == reviews[i].content)
      && (e.editable <==> reviews[i].userId != "" && currentUserId == Some(reviews[i].userId))
  {
    RenderEntriesInOrder(reviews, currentUserId);
    CanEditIff(currentUserId, reviews[i]);
  }
}
