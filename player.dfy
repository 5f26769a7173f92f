// `Player` of lib/chui_core/src/player.rs: a colour and an optional name,
// age and Elo rating. `Player::new` copies its arguments into the record;
// it is the datatype constructor `Player` here.

module Player {
  import opened Errors
  import opened Text
  import P = Piece

  datatype Player = Player(color: P.Color, name: Option<string>, age: Option<u8>, rating: Option<nat>)

  function NameText(name: Option<string>): string
  {
    if name.Some? then name.value else "(no name)"
  }

  function AgeText(age: Option<u8>): string
  {
    if age.Some? then " (Age " + NatToString(age.value) + ")" else ""
  }

  function RatingText(rating: Option<nat>): string
  {
    if rating.Some? then "(" + NatToString(rating.value) + " Elo)" else "(no Elo rating)"
  }

  /** `Display`: "{Color}: {name}{ (Age n)} {rating}". */
  function Display(p: Player): (s: string)
  {
    p.color.Name() + ": " + NameText(p.name) + AgeText(p.age) + " " + RatingText(p.rating)
  }

  /** Every opening parenthesis of the line is the name's, the age's or the
      rating's: the age segment is there exactly when the age is. */
  lemma AgeSegment(p: Player)
    ensures Occurrences(Display(p), '(') ==
      Occurrences(NameText(p.name), '(') + (if p.age.Some? then 1 else 0) + 1
  {
    var head := p.color.Name() + ": ";
    var name, age, rating := NameText(p.name), AgeText(p.age), RatingText(p.rating);
    assert Occurrences(head, '(') == 0;
    assert Occurrences(" ", '(') == 0;
    OccurrencesConcat(head, name, '(');
    OccurrencesConcat(head + name, age, '(');
    OccurrencesConcat(head + name + age, " ", '(');
    OccurrencesConcat(head + name + age + " ", rating, '(');
    AgeParens(p.age);
    RatingParens(p.rating);
  }

  lemma AgeParens(age: Option<u8>)
    ensures Occurrences(AgeText(age), '(') == if age.Some? then 1 else 0
  {
    if age.Some? {
      var digits := NatToString(age.value);
      assert '(' !in digits && '(' !in " " && '(' !in "Age " && '(' !in ")";
      assert AgeText(age) == " " + "(" + "Age " + digits + ")";
      OccurrencesConcat(" ", "(", '(');
      OccurrencesConcat(" " + "(", "Age ", '(');
      OccurrencesConcat(" " + "(" + "Age ", digits, '(');
      OccurrencesConcat(" " + "(" + "Age " + digits, ")", '(');
    }
  }

  lemma RatingParens(rating: Option<nat>)
    ensures Occurrences(RatingText(rating), '(') == 1
  {
    if rating.Some? {
      var digits := NatToString(rating.value);
      assert '(' !in digits + " Elo)";
      OneOpening(digits + " Elo)");
      assert RatingText(rating) == "(" + (digits + " Elo)");
    } else {
      NoRatingParens();
    }
  }

  lemma NoRatingParens()
    ensures Occurrences("(no Elo rating)", '(') == 1
  {
    assert "(no Elo rating)" == "(" + "no Elo rating)";
    OneOpening("no Elo rating)");
  }

  lemma OneOpening(rest: string)
    requires '(' !in rest
    ensures Occurrences("(" + rest, '(') == 1
  {
    assert ("(" + rest)[1..] == rest;
  }

  // The numerals of the module's tests, one at a time: each is a short
  // evaluation, several together are not.

  lemma Age47() ensures AgeText(Some(47)) == " (Age 47)" { assert NatToString(47) == "47"; }
  lemma Age12() ensures AgeText(Some(12)) == " (Age 12)" { assert NatToString(12) == "12"; }
  lemma Elo1500() ensures RatingText(Some(1500)) == "(1500 Elo)" { assert NatToString(1500) == "1500"; }
  lemma Elo2639() ensures RatingText(Some(2639)) == "(2639 Elo)" { assert NatToString(2639) == "2639"; }

  // All eight combinations of name, age and rating print as the module's
  // tests assert.

  lemma DisplayNameAgeRating()
    ensures Display(Player(P.White, Some("Dr. John Smith III"), Some(47), Some(1500)))
      == "White: Dr. John Smith III (Age 47) (1500 Elo)"
  {
    Age47();
    Elo1500();
    assert "White" + ": " + "Dr. John Smith III" == "White: Dr. John Smith III";
    assert "White: Dr. John Smith III" + " (Age 47)" + " " == "White: Dr. John Smith III (Age 47) ";
  }

  lemma DisplayNameAge()
    ensures Display(Player(P.Black, Some("John Smith IV"), Some(12), None))
      == "Black: John Smith IV (Age 12) (no Elo rating)"
  {
    Age12();
    assert "Black" + ": " + "John Smith IV" == "Black: John Smith IV";
    assert "Black: John Smith IV" + " (Age 12)" + " " == "Black: John Smith IV (Age 12) ";
  }

  lemma DisplayNameRating()
    ensures Display(Player(P.Black, Some("Billy Bob Joe Bob Jr."), None, Some(2639)))
      == "Black: Billy Bob Joe Bob Jr. (2639 Elo)"
  {
    Elo2639();
  }

  lemma DisplayName()
    ensures Display(Player(P.Black, Some("Smith"), None, None))
      == "Black: Smith (no Elo rating)"
  {
  }

  lemma DisplayAgeRating()
    ensures Display(Player(P.White, None, Some(47), Some(1500)))
      == "White: (no name) (Age 47) (1500 Elo)"
  {
    Age47();
    Elo1500();
  }

  lemma DisplayAge()
    ensures Display(Player(P.Black, None, Some(12), None))
      == "Black: (no name) (Age 12) (no Elo rating)"
  {
    Age12();
  }

  lemma DisplayRating()
    ensures Display(Player(P.Black, None, None, Some(2639)))
      == "Black: (no name) (2639 Elo)"
  {
    Elo2639();
  }

  lemma DisplayNothing()
    ensures Display(Player(P.Black, None, None, None))
      == "Black: (no name) (no Elo rating)"
  {
  }
}
