/** The user card: avatar initials derived from the customer name, the name and
    the building label (by the rules of the greeting card), and a skeleton while
    loading. */
module UserCard {
  import opened Text
  import opened JsValues
  import opened Seqs
  import GreetingCard

  predicate NonEmpty(w: string) {
    w != ""
  }

  /** `name.split(" ").filter(Boolean)` */
  function Words(name: string): (ws: seq<string>)
    ensures forall i :: 0 <= i < |ws| ==> ws[i] != "" && ' ' !in ws[i]
  {
    var ws := Filter(Split(name, ' '), NonEmpty);
    FilterMembers(Split(name, ' '), NonEmpty);
    SplitPiecesLackSep(name, ' ');
    assert forall i :: 0 <= i < |ws| ==> ws[i] in Split(name, ' ') && NonEmpty(ws[i]) by {
      forall i | 0 <= i < |ws| ensures ws[i] in Split(name, ' ') && NonEmpty(ws[i]) {
        assert ws[i] in ws;
      }
    }
    ws
  }

  /** `.map(part => part[0]).join("").toUpperCase().slice(0, 2)`: the first
      characters of the first two words, upper-cased. */
  function Initials(name: string): (r: string)
    ensures |r| <= 2
    ensures |r| == (if |Words(name)| < 2 then |Words(name)| else 2)
    ensures forall i :: 0 <= i < |r| ==> r[i] == UpperChar(Words(name)[i][0])
  {
    var ws := Words(name);
    var firsts := seq(|ws|, i requires 0 <= i < |ws| => ws[i][0]);
    var up := Upper(firsts);
    up[..if |up| < 2 then |up| else 2]
  }

  /** Words split at a space are the words on either side. */
  lemma WordsAround(a: string, b: string)
    ensures Words(a + " " + b) == Words(a) + Words(b)
  {
    SplitAround(a, ' ', b);
    FilterAppend(Split(a, ' '), Split(b, ' '), NonEmpty);
  }

  /** A single word gives its upper-cased first character. */
  lemma OneWord(w: string)
    requires w != "" && ' ' !in w
    ensures Words(w) == [w]
    ensures Initials(w) == [UpperChar(w[0])]
  {
    SplitWithoutSep(w, ' ');
    assert Filter([w], NonEmpty) == [w] + Filter([w][1..], NonEmpty);
  }

  lemma NoWordsInEmpty()
    ensures Words("") == []
  {
    assert Split("", ' ') == [""];
  }

  lemma LeadingWordsIgnoreSpace(a: string)
    ensures Words(" " + a) == Words(a)
  {
    NoWordsInEmpty();
    WordsAround("", a);
    assert "" + " " + a == " " + a;
  }

  lemma DoubledWordsIgnoreSpace(a: string, b: string)
    ensures Words(a + "  " + b) == Words(a + " " + b)
  {
    var t := " " + b;
    calc {
      Words(a + "  " + b);
      { assert a + "  " + b == a + " " + t; }
      Words(a + " " + t);
      { WordsAround(a, t); }
      Words(a) + Words(t);
      { LeadingWordsIgnoreSpace(b); }
      Words(a) + Words(b);
      { WordsAround(a, b); }
      Words(a + " " + b);
    }
  }

  /** Leading spaces change nothing. */
  lemma LeadingSpaceIgnored(a: string)
    ensures Initials(" " + a) == Initials(a)
  {
    LeadingWordsIgnoreSpace(a);
  }

  /** A doubled space between words changes nothing. */
  lemma DoubledSpaceIgnored(a: string, b: string)
    ensures Initials(a + "  " + b) == Initials(a + " " + b)
  {
    DoubledWordsIgnoreSpace(a, b);
  }

  /** The default name "Guest" gives the initial "G". */
  lemma GuestInitial()
    ensures Initials("Guest") == "G"
  {
    OneWord("Guest");
  }

  datatype View =
    | Skeleton
    | Card(initials: string, name: string, building: string)
    /** `split` is not a method of a non-string name, or the initials or the
        building shown are an object, which is not a valid `Text` child: either
        way rendering throws. */
    | RenderError

  /** The initials are computed before the loading test, so a name that is not
      a string breaks the card even while it would show its skeleton. */
  function Render(nameProp: JVal, buildingProp: JVal, initialsProp: JVal, loadingProp: JVal,
                  contextProfile: JVal, contextLoading: JVal): (v: View)
    ensures v.Skeleton? <==>
      GreetingCard.CustomerName(nameProp, contextProfile).Str? && Truthy(GreetingCard.EffectiveLoading(loadingProp, contextLoading))
    ensures v.RenderError? <==>
      !GreetingCard.CustomerName(nameProp, contextProfile).Str? ||
      (!Truthy(GreetingCard.EffectiveLoading(loadingProp, contextLoading)) &&
       !(Renderable(initialsProp) && Renderable(GreetingCard.BuildingLabel(buildingProp, contextProfile))))
    ensures v.Card? ==>
      v.initials == (if Truthy(initialsProp) then TextOf(initialsProp) else Initials(GreetingCard.CustomerName(nameProp, contextProfile).s)) &&
      v.name == GreetingCard.CustomerName(nameProp, contextProfile).s &&
      v.building == TextOf(GreetingCard.BuildingLabel(buildingProp, contextProfile))
  {
    var name := GreetingCard.CustomerName(nameProp, contextProfile);
    if !name.Str? then RenderError
    else
      var initials := Or(initialsProp, Str(Initials(name.s)));
      var building := GreetingCard.BuildingLabel(buildingProp, contextProfile);
      if Truthy(GreetingCard.EffectiveLoading(loadingProp, contextLoading)) then Skeleton
      else if !(Renderable(initials) && Renderable(building)) then RenderError
      else Card(TextOf(initials), name.s, TextOf(building))
  }
}
