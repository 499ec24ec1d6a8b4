/** Extraction of the object name from the challenge's question text
    (`requester_question.en`), as `hsolve` does it before classification. */
module Question {
  import opened JsString

  /** The substring whose presence selects the "an" branch. */
  const AN_MARKER := "containing an"
  /** The prefix split on in the "an" branch. */
  const AN_PREFIX := "Please click each image containing an "
  /** The prefix split on in the "a" branch. */
  const A_PREFIX := "Please click each image containing a "

  /** What line 175 evaluates to: a string, `undefined` (the "an" branch when
      the full prefix is missing), or a TypeError thrown by calling
      `.toLowerCase()` on `undefined` (the "a" branch when the full prefix is
      missing). */
  datatype Extraction = Object(name: string) | Undefined | TypeError

  /** The question as `hsolve` extracts it: the "an" branch keeps the case,
      the "a" branch lower-cases. */
  function Extract(question: string): (r: Extraction)
    ensures Includes(question, AN_MARKER) ==> !r.TypeError?
    ensures !Includes(question, AN_MARKER) ==> !r.Undefined?
  {
    if Includes(question, AN_MARKER) then
      match At(Split(question, AN_PREFIX), 1)
      case None => Undefined
      case Some(name) => Object(name)
    else
      match At(Split(question, A_PREFIX), 1)
      case None => TypeError
      case Some(name) => Object(ToLowerCase(name))
  }

  /** "an" branch: the segment after the first full prefix and before any
      second one, with its case unchanged; `undefined` when the marker is
      present but the full prefix is not (e.g. "containing animals"). */
  lemma ExtractAn(question: string)
    requires Includes(question, AN_MARKER)
    ensures IndexOf(question, AN_PREFIX).None? ==> Extract(question) == Undefined
    ensures IndexOf(question, AN_PREFIX).Some? ==>
      var i := IndexOf(question, AN_PREFIX).value;
      Extract(question) == Object(Segment(question, AN_PREFIX, i + |AN_PREFIX|))
  {
    SplitSecond(question, AN_PREFIX);
  }

  /** "a" branch: the segment after the first full prefix and before any
      second one, lower-cased; a TypeError when the full prefix is missing. */
  lemma ExtractA(question: string)
    requires !Includes(question, AN_MARKER)
    ensures IndexOf(question, A_PREFIX).None? ==> Extract(question) == TypeError
    ensures IndexOf(question, A_PREFIX).Some? ==>
      var i := IndexOf(question, A_PREFIX).value;
      Extract(question) == Object(ToLowerCase(Segment(question, A_PREFIX, i + |A_PREFIX|)))
  {
    SplitSecond(question, A_PREFIX);
  }

  /** Whatever the "a" branch yields has no upper-case letter. */
  lemma ExtractALowerCase(question: string)
    requires !Includes(question, AN_MARKER) && Extract(question).Object?
    ensures IsLowerCase(Extract(question).name)
  {
    var name :| At(Split(question, A_PREFIX), 1) == Some(name);
    ToLowerCaseSpec(name, name);
  }

  /** A question made of the "an" prefix and a name without that prefix
      yields exactly that name. */
  lemma ExtractAnPhrase(name: string)
    requires !Includes(name, AN_PREFIX)
    ensures Extract(AN_PREFIX + name) == Object(name)
  {
    var q := AN_PREFIX + name;
    assert q[..|AN_PREFIX|] == AN_PREFIX;
    assert OccursAt(q, AN_PREFIX, 0);
    assert q[24..24 + |AN_MARKER|] == AN_MARKER;
    assert OccursAt(q, AN_MARKER, 24);
    IndexOfSpec(q, AN_PREFIX);
    assert IndexOf(q, AN_PREFIX) == Some(0);
    NoSecondOccurrence(AN_PREFIX, name, AN_PREFIX);
    ExtractAn(q);
  }

  /** After a prefix, the rest of the question is the name alone: a name
      without `sep` leaves the segment after the prefix whole. */
  lemma NoSecondOccurrence(prefix: string, name: string, sep: string)
    requires !Includes(name, sep)
    ensures Segment(prefix + name, sep, |prefix|) == name
  {
    var q := prefix + name;
    assert q[|prefix|..] == name;
    forall j | j >= |prefix| && OccursAt(q, sep, j) ensures OccursAt(name, sep, j - |prefix|) {
      OccursDrop(q, sep, |prefix|, j - |prefix|);
    }
    IndexFromSpec(q, sep, |prefix|);
  }

  /** Within the "a" prefix, no 'c' is followed twelve positions later by
      an 'n', so no "an" marker starts inside it. */
  lemma MarkerNotInAPrefix(j: nat)
    requires j < |A_PREFIX| && A_PREFIX[j] == 'c'
    ensures j + 12 < |A_PREFIX| && A_PREFIX[j + 12] != 'n'
  {
    // the prefix has a 'c' only at positions 7, 10, 15 and 24
    assert forall i :: 0 <= i < |A_PREFIX| && A_PREFIX[i] == 'c' ==> i == 7 || i == 10 || i == 15 || i == 24;
  }

  /** The "an" marker occurs in the "a" prefix followed by a name only when
      it occurs in the name itself. */
  lemma APrefixHasNoMarker(name: string)
    ensures Includes(A_PREFIX + name, AN_MARKER) ==> Includes(name, AN_MARKER)
  {
    var q := A_PREFIX + name;
    forall j | OccursAt(q, AN_MARKER, j) ensures OccursAt(name, AN_MARKER, j - |A_PREFIX|) {
      var w := q[j..j + |AN_MARKER|];
      assert w == AN_MARKER && w[0] == 'c' && w[12] == 'n';
      assert q[j] == w[0] && q[j + 12] == w[12];
      if j < |A_PREFIX| {
        MarkerNotInAPrefix(j);
        assert false;
      } else {
        assert q[|A_PREFIX|..] == name;
        OccursDrop(q, AN_MARKER, |A_PREFIX|, j - |A_PREFIX|);
      }
    }
  }

  /** A question made of the "a" prefix and a name that holds neither the
      "an" marker nor a second prefix yields the lower-cased name. */
  lemma ExtractAPhrase(name: string)
    requires !Includes(name, AN_MARKER) && !Includes(name, A_PREFIX)
    ensures Extract(A_PREFIX + name) == Object(ToLowerCase(name))
  {
    var q := A_PREFIX + name;
    APrefixHasNoMarker(name);
    assert q[..|A_PREFIX|] == A_PREFIX;
    assert OccursAt(q, A_PREFIX, 0);
    IndexOfSpec(q, A_PREFIX);
    assert IndexOf(q, A_PREFIX) == Some(0);
    NoSecondOccurrence(A_PREFIX, name, A_PREFIX);
    ExtractA(q);
  }

  /** "Please click each image containing an airplane" yields "airplane". */
  lemma AirplaneExample()
    ensures Extract("Please click each image containing an airplane") == Object("airplane")
  {
    IndexOfSpec("airplane", AN_PREFIX);
    assert AN_PREFIX + "airplane" == "Please click each image containing an airplane";
    ExtractAnPhrase("airplane");
  }

  /** "Please click each image containing a Boat" yields "boat". */
  lemma BoatExample()
    ensures Extract("Please click each image containing a Boat") == Object("boat")
  {
    assert !Includes("Boat", AN_MARKER) && !Includes("Boat", A_PREFIX);
    ExtractAPhrase("Boat");
    assert A_PREFIX + "Boat" == "Please click each image containing a Boat";
    assert ToLowerCase("Boat") == "boat";
  }

  /** "Please click each image containing animals" passes the marker test
      but lacks the full "an" prefix: the result is `undefined`, nothing is
      thrown. */
  lemma AnimalsExample()
    ensures Extract("Please click each image containing animals") == Undefined
  {
    var q := "Please click each image containing animals";
    assert q[24..24 + |AN_MARKER|] == AN_MARKER;
    assert OccursAt(q, AN_MARKER, 24);
    forall j | 0 <= j <= |q| - |AN_PREFIX| ensures !OccursAt(q, AN_PREFIX, j) {
      // the prefix ends in a blank; the question has none at offsets 37 to 41
      assert AN_PREFIX[37] == ' ' && q[j..j + |AN_PREFIX|][37] == q[j + 37];
      if j == 0 { } else if j == 1 { } else if j == 2 { } else if j == 3 { } else if j == 4 { }
    }
    IndexOfSpec(q, AN_PREFIX);
    ExtractAn(q);
  }

  /** A question without either prefix, such as "Select boats", makes the
      "a" branch throw. */
  lemma NoPrefixExample()
    ensures Extract("Select boats") == TypeError
  {
    IndexOfSpec("Select boats", A_PREFIX);
    ExtractA("Select boats");
  }
}
