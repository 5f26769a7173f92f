// The oldest `Player`, src/modules/player.rs: a player's name parts, the
// full name assembled from them, and the line the player prints as.

module OldPlayer {
  import opened Errors
  import opened Text
  import P = Piece

  datatype Player = Player(
    color: P.Color,
    lastName: string,
    firstName: Option<string>,
    namePrefix: Option<string>,
    nameSuffix: Option<string>,
    fullName: string,
    age: Option<u8>,
    rating: Option<nat>)

  /** The full name as it reads: the prefix, the last name, the first name
      after a comma, then the suffix, each part present only when given. */
  function FullName(lastName: string, firstName: Option<string>,
                    namePrefix: Option<string>, nameSuffix: Option<string>): string
  {
    (if namePrefix.Some? then namePrefix.value + " " else "")
    + lastName
    + (if firstName.Some? then ", " + firstName.value else "")
    + (if nameSuffix.Some? then " " + nameSuffix.value else "")
  }

  /** `Player::new`: the optional parts are stored as given, and the full
      name is built by appending the first name, then prepending the
      prefix, then appending the suffix. */
  method New(color: P.Color, lastName: string, firstName: Option<string>,
             namePrefix: Option<string>, nameSuffix: Option<string>,
             age: Option<u8>, rating: Option<nat>) returns (p: Player)
    ensures p.color == color && p.lastName == lastName && p.firstName == firstName
    ensures p.namePrefix == namePrefix && p.nameSuffix == nameSuffix
    ensures p.age == age && p.rating == rating
    ensures p.fullName == FullName(lastName, firstName, namePrefix, nameSuffix)
  {
    var fullName := lastName;
    ghost var first := if firstName.Some? then ", " + firstName.value else "";
    if firstName.Some? {
      fullName := fullName + ", " + firstName.value;
    }
    assert fullName == lastName + first;
    ghost var prefix := if namePrefix.Some? then namePrefix.value + " " else "";
    if namePrefix.Some? {
      fullName := namePrefix.value + " " + fullName;
    }
    assert fullName == prefix + lastName + first;
    if nameSuffix.Some? {
      fullName := fullName + " " + nameSuffix.value;
    }
    p := Player(color, lastName, firstName, namePrefix, nameSuffix, fullName, age, rating);
  }

  /** The rating part of the display line. */
  function RatingText(rating: Option<nat>): string
  {
    if rating.Some? then " (" + NatToString(rating.value) + ")" else " (no rating)"
  }

  /** `Display`: "{Color}: {full name}", then the rating in parentheses or
      "(no rating)". */
  function Display(p: Player): (s: string)
  {
    p.color.Name() + ": " + p.fullName + RatingText(p.rating)
  }

  /** The line starts with the colour and the full name, and its last
      character before the closing parenthesis is a digit exactly when the
      player has a rating. */
  lemma DisplayShape(p: Player)
    ensures Display(p)[..|p.color.Name()| + 2 + |p.fullName|] == p.color.Name() + ": " + p.fullName
    ensures Display(p)[|Display(p)| - 1] == ')'
    ensures IsDigit(Display(p)[|Display(p)| - 2]) <==> p.rating.Some?
  {
    var head := p.color.Name() + ": " + p.fullName;
    assert Display(p) == head + RatingText(p.rating);
    assert Display(p)[..|head|] == head;
    if p.rating.Some? {
      var digits := NatToString(p.rating.value);
      assert RatingText(p.rating) == " (" + digits + ")";
      assert Display(p)[|Display(p)| - 2] == digits[|digits| - 1];
    }
  }

  // The players of the module's tests print as asserted there.

  lemma FullNameEveryPart()
    ensures FullName("Smith", Some("John"), Some("Dr."), Some("III")) == "Dr. Smith, John III"
  {
  }

  lemma Rating1500() ensures RatingText(Some(1500)) == " (1500)" { assert NatToString(1500) == "1500"; }
  lemma Rating2639() ensures RatingText(Some(2639)) == " (2639)" { assert NatToString(2639) == "2639"; }

  lemma DisplayEveryPart()
    ensures Display(Player(P.White, "Smith", Some("John"), Some("Dr."), Some("III"),
      FullName("Smith", Some("John"), Some("Dr."), Some("III")), Some(47), Some(1500)))
      == "White: Dr. Smith, John III (1500)"
  {
    FullNameEveryPart();
    Rating1500();
  }

  lemma DisplayNoPrefixNoRating()
    ensures Display(Player(P.Black, "Smith", Some("John"), None, Some("IV"),
      FullName("Smith", Some("John"), None, Some("IV")), Some(12), None))
      == "Black: Smith, John IV (no rating)"
  {
  }

  lemma DisplayLastNameOnly()
    ensures Display(Player(P.Black, "Smith", None, None, None,
      FullName("Smith", None, None, None), Some(27), Some(2639)))
      == "Black: Smith (2639)"
  {
    Rating2639();
  }
}
