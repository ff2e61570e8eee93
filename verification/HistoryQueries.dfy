/** What the verifier's queries answer, in terms of the positions of the facts. */
module HistoryQueries {
  import opened Outcomes
  import opened LedgerValues
  import opened History

  // Created facts ----------------------------------------------------------------------------------------------------

  predicate SameContract(a: CreatedFact, b: CreatedFact) {
    a.cid == b.cid && a.update == b.update
  }

  predicate Chosen(facts: seq<CreatedFact>, q: CreatedQuery, present: bool, i: int) {
    0 <= i < |facts| && Hits(q, facts[i]) && facts[i].arguments.Some? == present
  }

  predicate FirstChosen(facts: seq<CreatedFact>, q: CreatedQuery, present: bool, i: int) {
    Chosen(facts, q, present, i) && forall j :: 0 <= j < i ==> !Chosen(facts, q, present, j)
  }

  predicate LastChosen(facts: seq<CreatedFact>, q: CreatedQuery, present: bool, i: int) {
    Chosen(facts, q, present, i) && forall j :: i < j < |facts| ==> !Chosen(facts, q, present, j)
  }

  predicate NoneChosen(facts: seq<CreatedFact>, q: CreatedQuery, present: bool) {
    forall j :: 0 <= j < |facts| ==> !Chosen(facts, q, present, j)
  }

  function ChosenFacts(facts: seq<CreatedFact>, q: CreatedQuery, present: bool): seq<CreatedFact> {
    WithArguments(Created(facts, q), present)
  }

  lemma ChosenFactsStep(facts: seq<CreatedFact>, q: CreatedQuery, present: bool)
    requires facts != []
    ensures ChosenFacts(facts, q, present)
      == (if Chosen(facts, q, present, 0) then [facts[0]] else []) + ChosenFacts(facts[1..], q, present)
  {
    var rest := Created(facts[1..], q);
    if Hits(q, facts[0]) {
      assert ([facts[0]] + rest)[1..] == rest;
    } else {
      assert [] + rest == rest;
    }
  }

  lemma {:induction false} ChosenFactIs(facts: seq<CreatedFact>, q: CreatedQuery, present: bool, fact: CreatedFact)
    ensures fact in ChosenFacts(facts, q, present) <==> exists i :: Chosen(facts, q, present, i) && facts[i] == fact
    decreases |facts|
  {
    if facts != [] {
      ChosenFactsStep(facts, q, present);
      ChosenFactIs(facts[1..], q, present, fact);
      if i :| Chosen(facts, q, present, i) && facts[i] == fact {
        assert i > 0 ==> Chosen(facts[1..], q, present, i - 1);
      }
      if i :| Chosen(facts[1..], q, present, i) && facts[1..][i] == fact {
        assert Chosen(facts, q, present, i + 1);
      }
    }
  }

  lemma ChosenOrNone(facts: seq<CreatedFact>, q: CreatedQuery, present: bool)
    ensures ChosenFacts(facts, q, present) == [] <==> NoneChosen(facts, q, present)
  {
    if ChosenFacts(facts, q, present) != [] {
      ChosenFactIs(facts, q, present, ChosenFacts(facts, q, present)[0]);
    } else if i :| Chosen(facts, q, present, i) {
      ChosenFactIs(facts, q, present, facts[i]);
    }
  }

  lemma ChosenFactsAre(facts: seq<CreatedFact>, q: CreatedQuery, present: bool)
    ensures ChosenFacts(facts, q, present) == [] <==> NoneChosen(facts, q, present)
    ensures forall i :: Chosen(facts, q, present, i) ==> facts[i] in ChosenFacts(facts, q, present)
    ensures forall fact :: fact in ChosenFacts(facts, q, present) ==> exists i :: Chosen(facts, q, present, i) && facts[i] == fact
  {
    forall fact ensures fact in ChosenFacts(facts, q, present) <==> exists i :: Chosen(facts, q, present, i) && facts[i] == fact {
      ChosenFactIs(facts, q, present, fact);
    }
    ChosenOrNone(facts, q, present);
  }

  lemma {:induction false} FirstOfChosen(facts: seq<CreatedFact>, q: CreatedQuery, present: bool) returns (i: int)
    requires ChosenFacts(facts, q, present) != []
    ensures FirstChosen(facts, q, present, i) && facts[i] == ChosenFacts(facts, q, present)[0]
    decreases |facts|
  {
    ChosenFactsStep(facts, q, present);
    if Chosen(facts, q, present, 0) {
      i := 0;
    } else {
      var k := FirstOfChosen(facts[1..], q, present);
      i := k + 1;
      forall j | 0 <= j < i ensures !Chosen(facts, q, present, j) {
        assert j > 0 ==> !Chosen(facts[1..], q, present, j - 1);
      }
    }
  }

  lemma {:induction false} LastOfChosen(facts: seq<CreatedFact>, q: CreatedQuery, present: bool) returns (i: int)
    requires ChosenFacts(facts, q, present) != []
    ensures LastChosen(facts, q, present, i) && facts[i] == ChosenFacts(facts, q, present)[|ChosenFacts(facts, q, present)| - 1]
    decreases |facts|
  {
    ChosenFactsStep(facts, q, present);
    if ChosenFacts(facts[1..], q, present) == [] {
      i := 0;
      ChosenFactsAre(facts[1..], q, present);
      forall j | i < j < |facts| ensures !Chosen(facts, q, present, j) {
        assert !Chosen(facts[1..], q, present, j - 1);
      }
    } else {
      var k := LastOfChosen(facts[1..], q, present);
      i := k + 1;
      forall j | i < j < |facts| ensures !Chosen(facts, q, present, j) {
        assert !Chosen(facts[1..], q, present, j - 1);
      }
    }
  }

  /** Dropping repetitions leaves one fact exactly when all facts are of one contract. */
  lemma {:induction false} DedupLeavesOne(facts: seq<CreatedFact>)
    requires facts != []
    ensures DedupCreated(facts)[0] == facts[0]
    ensures |DedupCreated(facts)| == 1 <==> forall i :: 0 <= i < |facts| ==> SameContract(facts[i], facts[0])
    decreases |facts|
  {
    if |facts| >= 2 {
      var init := facts[..|facts| - 1];
      DedupLeavesOne(init);
      assert forall i :: 0 <= i < |init| ==> init[i] == facts[i];
      if |DedupCreated(init)| == 1 {
        assert facts[|facts| - 1] == facts[|init|];
      }
    }
  }

  /** The fact at this position answers the query: the first one with arguments, or the first one where none has any. */
  predicate Answers(facts: seq<CreatedFact>, q: CreatedQuery, i: int) {
    || FirstChosen(facts, q, true, i)
    || (NoneChosen(facts, q, true) && FirstChosen(facts, q, false, i))
  }

  lemma AnswersAreOne(facts: seq<CreatedFact>, q: CreatedQuery, i: int, j: int)
    requires Answers(facts, q, i) && Answers(facts, q, j)
    ensures i == j
  {
  }

  /** All facts the query hits are of one contract. */
  predicate AllOf(facts: seq<CreatedFact>, q: CreatedQuery, contract: CreatedFact) {
    forall fact :: fact in facts && Hits(q, fact) ==> SameContract(fact, contract)
  }

  function Selected(facts: seq<CreatedFact>, q: CreatedQuery): seq<CreatedFact> {
    ArgumentsFirst(Created(facts, q))
  }

  lemma SelectedAre(facts: seq<CreatedFact>, q: CreatedQuery, fact: CreatedFact)
    ensures fact in Selected(facts, q) <==> fact in facts && Hits(q, fact)
  {
    ChosenFactsAre(facts, q, true);
    ChosenFactsAre(facts, q, false);
    if fact in facts && Hits(q, fact) {
      var i :| 0 <= i < |facts| && facts[i] == fact;
      assert Chosen(facts, q, fact.arguments.Some?, i);
    }
  }

  lemma FirstAnswers(facts: seq<CreatedFact>, q: CreatedQuery) returns (i: int)
    requires Selected(facts, q) != []
    ensures Answers(facts, q, i) && facts[i] == Selected(facts, q)[0]
  {
    ChosenFactsAre(facts, q, true);
    if ChosenFacts(facts, q, true) != [] {
      i := FirstOfChosen(facts, q, true);
    } else {
      assert Selected(facts, q) == ChosenFacts(facts, q, false);
      i := FirstOfChosen(facts, q, false);
    }
  }

  lemma FactIsTaken(h: CantonHistory, q: CreatedQuery, fact: CreatedFact)
    ensures var found := Selected(h.created, q);
      UniqueCreated(h, q) == Ok(fact) <==> found != [] && found[0] == fact && AllOf(h.created, q, fact)
  {
    var found := Selected(h.created, q);
    if found != [] {
      DedupLeavesOne(found);
      forall other ensures other in found <==> other in h.created && Hits(q, other) {
        SelectedAre(h.created, q, other);
      }
      assert AllOf(h.created, q, found[0]) <==> forall j :: 0 <= j < |found| ==> SameContract(found[j], found[0]);
    }
  }

  lemma FactIsSelected(facts: seq<CreatedFact>, q: CreatedQuery, i: int)
    requires Answers(facts, q, i)
    ensures facts[i] in Selected(facts, q)
  {
    SelectedAre(facts, q, facts[i]);
  }

  /** The query answers with the first fact, arguments preferred, exactly when it hits one contract only. */
  lemma UniqueCreatedExactly(h: CantonHistory, q: CreatedQuery, fact: CreatedFact)
    ensures UniqueCreated(h, q) == Ok(fact) <==>
      exists i :: Answers(h.created, q, i) && h.created[i] == fact && AllOf(h.created, q, fact)
  {
    FactIsTaken(h, q, fact);
    forall i | Answers(h.created, q, i) ensures Selected(h.created, q) != [] {
      FactIsSelected(h.created, q, i);
    }
    if Selected(h.created, q) != [] {
      var i := FirstAnswers(h.created, q);
      forall j | Answers(h.created, q, j) ensures j == i {
        AnswersAreOne(h.created, q, i, j);
      }
    }
  }
  lemma {:induction false} NoArgumentsAtAll(facts: seq<CreatedFact>)
    requires WithArguments(facts, true) == []
    ensures WithArguments(facts, false) == facts
    decreases |facts|
  {
    if facts != [] {
      NoArgumentsAtAll(facts[1..]);
    }
  }

  /** The last fact with arguments, or the last one where none has any. */
  predicate AnswersLast(facts: seq<CreatedFact>, q: CreatedQuery, i: int) {
    || LastChosen(facts, q, true, i)
    || (NoneChosen(facts, q, true) && LastChosen(facts, q, false, i))
  }

  lemma LastAnswersAreOne(facts: seq<CreatedFact>, q: CreatedQuery, i: int, j: int)
    requires AnswersLast(facts, q, i) && AnswersLast(facts, q, j)
    ensures i == j
  {
  }

  lemma LastAnswer(facts: seq<CreatedFact>, q: CreatedQuery) returns (i: int)
    requires Created(facts, q) != []
    ensures AnswersLast(facts, q, i) && LastWithArguments(Created(facts, q)) == Some(facts[i])
  {
    ChosenFactsAre(facts, q, true);
    if ChosenFacts(facts, q, true) != [] {
      i := LastOfChosen(facts, q, true);
    } else {
      NoArgumentsAtAll(Created(facts, q));
      i := LastOfChosen(facts, q, false);
    }
  }

  lemma {:induction false} NothingChosen(facts: seq<CreatedFact>, q: CreatedQuery, i: int)
    requires Created(facts, q) == []
    ensures !AnswersLast(facts, q, i)
  {
    ChosenFactsAre(facts, q, true);
    ChosenFactsAre(facts, q, false);
  }

  /** Of several facts with one contract id the last with arguments is taken, or the last where none has any. */
  lemma CreatedByCidExactly(h: CantonHistory, cid: string, fact: CreatedFact)
    ensures CreatedByCid(h, cid) == Ok(fact) <==> exists i :: AnswersLast(h.created, WithCid(cid), i) && h.created[i] == fact
  {
    if Created(h.created, WithCid(cid)) != [] {
      var i := LastAnswer(h.created, WithCid(cid));
      forall j | AnswersLast(h.created, WithCid(cid), j) ensures j == i {
        LastAnswersAreOne(h.created, WithCid(cid), i, j);
      }
    } else {
      forall j ensures !AnswersLast(h.created, WithCid(cid), j) {
        NothingChosen(h.created, WithCid(cid), j);
      }
    }
  }

  // Exercised facts ----------------------------------------------------------------------------------------------------

  predicate SameExercise(a: ExercisedFact, b: ExercisedFact) {
    a.cid == b.cid && a.update == b.update && a.choice == b.choice
  }

  predicate Picked(facts: seq<ExercisedFact>, q: ExercisedQuery, argument: bool, result: bool, i: int) {
    0 <= i < |facts| && HitsExercise(q, facts[i]) && facts[i].argument.Some? == argument && facts[i].result.Some? == result
  }

  predicate FirstPicked(facts: seq<ExercisedFact>, q: ExercisedQuery, argument: bool, result: bool, i: int) {
    Picked(facts, q, argument, result, i) && forall j :: 0 <= j < i ==> !Picked(facts, q, argument, result, j)
  }

  predicate NonePicked(facts: seq<ExercisedFact>, q: ExercisedQuery, argument: bool, result: bool) {
    forall j :: 0 <= j < |facts| ==> !Picked(facts, q, argument, result, j)
  }

  function PickedFacts(facts: seq<ExercisedFact>, q: ExercisedQuery, argument: bool, result: bool): seq<ExercisedFact> {
    WithParts(Exercised(facts, q), argument, result)
  }

  lemma PickedFactsStep(facts: seq<ExercisedFact>, q: ExercisedQuery, argument: bool, result: bool)
    requires facts != []
    ensures PickedFacts(facts, q, argument, result)
      == (if Picked(facts, q, argument, result, 0) then [facts[0]] else []) + PickedFacts(facts[1..], q, argument, result)
  {
    var rest := Exercised(facts[1..], q);
    if HitsExercise(q, facts[0]) {
      assert ([facts[0]] + rest)[1..] == rest;
    } else {
      assert [] + rest == rest;
    }
  }

  lemma {:induction false} PickedFactIs(facts: seq<ExercisedFact>, q: ExercisedQuery, argument: bool, result: bool, fact: ExercisedFact)
    ensures fact in PickedFacts(facts, q, argument, result) <==> exists i :: Picked(facts, q, argument, result, i) && facts[i] == fact
    decreases |facts|
  {
    if facts != [] {
      PickedFactsStep(facts, q, argument, result);
      PickedFactIs(facts[1..], q, argument, result, fact);
      if i :| Picked(facts, q, argument, result, i) && facts[i] == fact {
        assert i > 0 ==> Picked(facts[1..], q, argument, result, i - 1);
      }
      if i :| Picked(facts[1..], q, argument, result, i) && facts[1..][i] == fact {
        assert Picked(facts, q, argument, result, i + 1);
      }
    }
  }

  lemma PickedOrNone(facts: seq<ExercisedFact>, q: ExercisedQuery, argument: bool, result: bool)
    ensures PickedFacts(facts, q, argument, result) == [] <==> NonePicked(facts, q, argument, result)
  {
    if PickedFacts(facts, q, argument, result) != [] {
      PickedFactIs(facts, q, argument, result, PickedFacts(facts, q, argument, result)[0]);
    } else if i :| Picked(facts, q, argument, result, i) {
      PickedFactIs(facts, q, argument, result, facts[i]);
    }
  }

  lemma PickedFactsAre(facts: seq<ExercisedFact>, q: ExercisedQuery, argument: bool, result: bool)
    ensures PickedFacts(facts, q, argument, result) == [] <==> NonePicked(facts, q, argument, result)
    ensures forall i :: Picked(facts, q, argument, result, i) ==> facts[i] in PickedFacts(facts, q, argument, result)
    ensures forall fact :: fact in PickedFacts(facts, q, argument, result) ==>
      exists i :: Picked(facts, q, argument, result, i) && facts[i] == fact
  {
    forall fact
      ensures fact in PickedFacts(facts, q, argument, result) <==> exists i :: Picked(facts, q, argument, result, i) && facts[i] == fact
    {
      PickedFactIs(facts, q, argument, result, fact);
    }
    PickedOrNone(facts, q, argument, result);
  }

  lemma {:induction false} FirstOfPicked(facts: seq<ExercisedFact>, q: ExercisedQuery, argument: bool, result: bool) returns (i: int)
    requires PickedFacts(facts, q, argument, result) != []
    ensures FirstPicked(facts, q, argument, result, i) && facts[i] == PickedFacts(facts, q, argument, result)[0]
    decreases |facts|
  {
    PickedFactsStep(facts, q, argument, result);
    if Picked(facts, q, argument, result, 0) {
      i := 0;
    } else {
      var k := FirstOfPicked(facts[1..], q, argument, result);
      i := k + 1;
      forall j | 0 <= j < i ensures !Picked(facts, q, argument, result, j) {
        assert j > 0 ==> !Picked(facts[1..], q, argument, result, j - 1);
      }
    }
  }

  lemma {:induction false} DedupLeavesOneExercise(facts: seq<ExercisedFact>)
    requires facts != []
    ensures DedupExercised(facts)[0] == facts[0]
    ensures |DedupExercised(facts)| == 1 <==> forall i :: 0 <= i < |facts| ==> SameExercise(facts[i], facts[0])
    decreases |facts|
  {
    if |facts| >= 2 {
      var init := facts[..|facts| - 1];
      DedupLeavesOneExercise(init);
      assert forall i :: 0 <= i < |init| ==> init[i] == facts[i];
      if |DedupExercised(init)| == 1 {
        assert facts[|facts| - 1] == facts[|init|];
      }
    }
  }

  /** The fact at this position answers the query: with argument and result if there is one, then with an argument, then with a result. */
  predicate AnswersExercise(facts: seq<ExercisedFact>, q: ExercisedQuery, i: int) {
    if !NonePicked(facts, q, true, true) then FirstPicked(facts, q, true, true, i)
    else if !NonePicked(facts, q, true, false) then FirstPicked(facts, q, true, false, i)
    else if !NonePicked(facts, q, false, true) then FirstPicked(facts, q, false, true, i)
    else FirstPicked(facts, q, false, false, i)
  }

  lemma ExercisesAnswerOnce(facts: seq<ExercisedFact>, q: ExercisedQuery, i: int, j: int)
    requires AnswersExercise(facts, q, i) && AnswersExercise(facts, q, j)
    ensures i == j
  {
  }

  predicate AllOfExercise(facts: seq<ExercisedFact>, q: ExercisedQuery, exercise: ExercisedFact) {
    forall fact :: fact in facts && HitsExercise(q, fact) ==> SameExercise(fact, exercise)
  }

  function Exercises(facts: seq<ExercisedFact>, q: ExercisedQuery): seq<ExercisedFact> {
    PartsFirst(Exercised(facts, q))
  }

  lemma PickedIs(facts: seq<ExercisedFact>, q: ExercisedQuery, argument: bool, result: bool, fact: ExercisedFact)
    ensures fact in PickedFacts(facts, q, argument, result) <==>
      fact in facts && HitsExercise(q, fact) && fact.argument.Some? == argument && fact.result.Some? == result
  {
    PickedFactsAre(facts, q, argument, result);
    if fact in facts && HitsExercise(q, fact) && fact.argument.Some? == argument && fact.result.Some? == result {
      var i :| 0 <= i < |facts| && facts[i] == fact;
      assert Picked(facts, q, argument, result, i);
    }
  }

  lemma PickedAre(facts: seq<ExercisedFact>, q: ExercisedQuery, fact: ExercisedFact)
    ensures fact in Exercises(facts, q) <==> fact in facts && HitsExercise(q, fact)
  {
    PickedIs(facts, q, true, true, fact);
    PickedIs(facts, q, true, false, fact);
    PickedIs(facts, q, false, true, fact);
    PickedIs(facts, q, false, false, fact);
  }

  lemma FirstExerciseAnswers(facts: seq<ExercisedFact>, q: ExercisedQuery) returns (i: int)
    requires Exercises(facts, q) != []
    ensures AnswersExercise(facts, q, i) && facts[i] == Exercises(facts, q)[0]
  {
    PickedFactsAre(facts, q, true, true);
    PickedFactsAre(facts, q, true, false);
    PickedFactsAre(facts, q, false, true);
    var (a, b, c, d) := (PickedFacts(facts, q, true, true), PickedFacts(facts, q, true, false), PickedFacts(facts, q, false, true),
                         PickedFacts(facts, q, false, false));
    assert Exercises(facts, q) == a + b + c + d;
    if a != [] {
      i := FirstOfPicked(facts, q, true, true);
    } else if b != [] {
      i := FirstOfPicked(facts, q, true, false);
    } else if c != [] {
      i := FirstOfPicked(facts, q, false, true);
    } else {
      i := FirstOfPicked(facts, q, false, false);
    }
  }

  lemma ExerciseIsTaken(h: CantonHistory, q: ExercisedQuery, fact: ExercisedFact)
    ensures var found := Exercises(h.exercised, q);
      UniqueExercised(h, q) == Ok(fact) <==> found != [] && found[0] == fact && AllOfExercise(h.exercised, q, fact)
  {
    var found := Exercises(h.exercised, q);
    if found != [] {
      DedupLeavesOneExercise(found);
      forall other ensures other in found <==> other in h.exercised && HitsExercise(q, other) {
        PickedAre(h.exercised, q, other);
      }
      assert AllOfExercise(h.exercised, q, found[0]) <==> forall j :: 0 <= j < |found| ==> SameExercise(found[j], found[0]);
    }
  }

  lemma ExerciseIsSelected(facts: seq<ExercisedFact>, q: ExercisedQuery, i: int)
    requires AnswersExercise(facts, q, i)
    ensures facts[i] in Exercises(facts, q)
  {
    PickedAre(facts, q, facts[i]);
  }

  /** The same for choices: one exercise only, and the best recorded of its facts. */
  lemma UniqueExercisedExactly(h: CantonHistory, q: ExercisedQuery, fact: ExercisedFact)
    ensures UniqueExercised(h, q) == Ok(fact) <==>
      exists i :: AnswersExercise(h.exercised, q, i) && h.exercised[i] == fact && AllOfExercise(h.exercised, q, fact)
  {
    ExerciseIsTaken(h, q, fact);
    forall i | AnswersExercise(h.exercised, q, i) ensures Exercises(h.exercised, q) != [] {
      ExerciseIsSelected(h.exercised, q, i);
    }
    if Exercises(h.exercised, q) != [] {
      var i := FirstExerciseAnswers(h.exercised, q);
      forall j | AnswersExercise(h.exercised, q, j) ensures j == i {
        ExercisesAnswerOnce(h.exercised, q, i, j);
      }
    }
  }
  // Bindings -------------------------------------------------------------------------------------------------------------

  predicate Unrepeated(texts: seq<string>) {
    forall i, j :: 0 <= i < j < |texts| ==> texts[i] != texts[j]
  }

  predicate Names(facts: seq<CreatedFact>, name: string, text: string) {
    exists fact :: fact in facts && FieldText(fact.arguments, name) == Some(text)
  }

  lemma {:induction false} DistinctTextsAre(facts: seq<CreatedFact>, name: string)
    ensures Unrepeated(DistinctTexts(facts, name))
    ensures forall text :: text in DistinctTexts(facts, name) <==> Names(facts, name, text)
    decreases |facts|
  {
    if facts != [] {
      var (init, last) := (facts[..|facts| - 1], facts[|facts| - 1]);
      DistinctTextsAre(init, name);
      assert facts == init + [last];
      forall text ensures text in DistinctTexts(facts, name) <==> Names(facts, name, text) {
        if FieldText(last.arguments, name) == Some(text) {
          assert last in facts;
        } else {
          assert Names(facts, name, text) <==> Names(init, name, text);
        }
      }
    }
  }

  /** Every fact that names something under this name names this text, and one does. */
  predicate AgreeOn(facts: seq<CreatedFact>, name: string, text: string) {
    && Names(facts, name, text)
    && forall fact :: fact in facts && FieldText(fact.arguments, name).Some? ==> FieldText(fact.arguments, name) == Some(text)
  }

  lemma OneTextIsAgreement(facts: seq<CreatedFact>, name: string, text: string)
    ensures DistinctTexts(facts, name) == [text] <==> AgreeOn(facts, name, text)
  {
    var texts := DistinctTexts(facts, name);
    DistinctTextsAre(facts, name);
    assert |texts| >= 2 ==> texts[0] != texts[1];
    if AgreeOn(facts, name, text) {
      forall i | 0 <= i < |texts| ensures texts[i] == text {
        assert texts[i] in texts;
        assert Names(facts, name, texts[i]);
      }
      assert text in texts;
    } else if texts == [text] {
      assert text in texts;
      forall fact | fact in facts && FieldText(fact.arguments, name).Some? ensures FieldText(fact.arguments, name) == Some(text) {
        assert Names(facts, name, FieldText(fact.arguments, name).value);
      }
    }
  }

  predicate PaidAt(facts: seq<CreatedFact>, i: int) {
    0 <= i < |facts| && FieldText(facts[i].arguments, "sellerPaymentCid").Some?
  }

  lemma {:induction false} PaidAre(facts: seq<CreatedFact>)
    ensures WithPayment(facts) == [] <==> forall j :: 0 <= j < |facts| ==> !PaidAt(facts, j)
    decreases |facts|
  {
    if facts != [] {
      PaidAre(facts[1..]);
      if j :| 0 <= j < |facts[1..]| && PaidAt(facts[1..], j) {
        assert PaidAt(facts, j + 1);
      } else {
        forall j | 0 < j < |facts| ensures !PaidAt(facts, j) {
          assert !PaidAt(facts[1..], j - 1);
        }
        assert WithPayment(facts) == [] <==> !PaidAt(facts, 0);
      }
    }
  }

  lemma {:induction false} LastPaid(facts: seq<CreatedFact>) returns (i: int)
    requires WithPayment(facts) != []
    ensures PaidAt(facts, i) && facts[i] == WithPayment(facts)[|WithPayment(facts)| - 1]
    ensures forall j :: i < j < |facts| ==> !PaidAt(facts, j)
    decreases |facts|
  {
    if WithPayment(facts[1..]) == [] {
      i := 0;
      PaidAre(facts[1..]);
      forall j | 0 < j < |facts| ensures !PaidAt(facts, j) {
        assert !PaidAt(facts[1..], j - 1);
      }
    } else {
      var k := LastPaid(facts[1..]);
      i := k + 1;
      forall j | i < j < |facts| ensures !PaidAt(facts, j) {
        assert !PaidAt(facts[1..], j - 1);
      }
    }
  }

  /** The last binding with a recorded payment, or the last one where none has a payment. */
  predicate StandsAt(facts: seq<CreatedFact>, i: int) {
    && 0 <= i < |facts|
    && (if exists j :: 0 <= j < |facts| && PaidAt(facts, j) then PaidAt(facts, i) && forall j :: i < j < |facts| ==> !PaidAt(facts, j) else i == |facts| - 1)
  }

  lemma StandsAtOne(facts: seq<CreatedFact>, i: int, j: int)
    requires StandsAt(facts, i) && StandsAt(facts, j)
    ensures i == j
  {
  }

  /** The bindings of a lock must agree on the holding and on one trade; the last paid one stands for them. */
  lemma BindingOfExactly(found: seq<CreatedFact>, holding: string, binding: CreatedFact)
    ensures BindingOf(found, holding) == Ok(binding) <==>
      && AgreeOn(found, "mintHoldingCid", holding) && (exists trade :: AgreeOn(found, "tradeCid", trade))
      && exists i :: StandsAt(found, i) && found[i] == binding
  {
    OneTextIsAgreement(found, "mintHoldingCid", holding);
    var trades := DistinctTexts(found, "tradeCid");
    forall trade ensures trades == [trade] <==> AgreeOn(found, "tradeCid", trade) {
      OneTextIsAgreement(found, "tradeCid", trade);
    }
    assert |trades| == 1 <==> exists trade :: AgreeOn(found, "tradeCid", trade) by {
      if |trades| == 1 {
        assert trades == [trades[0]];
      }
    }
    if found != [] {
      var i := StandingOne(found);
    }
  }

  lemma StandingOne(found: seq<CreatedFact>) returns (i: int)
    requires found != []
    ensures StandsAt(found, i) && forall j :: StandsAt(found, j) ==> j == i
    ensures found[i] == (var paid := WithPayment(found); if paid != [] then paid[|paid| - 1] else found[|found| - 1])
  {
    PaidAre(found);
    if WithPayment(found) == [] {
      i := |found| - 1;
    } else {
      i := LastPaid(found);
    }
    forall j | StandsAt(found, j) ensures j == i {
      StandsAtOne(found, i, j);
    }
  }
}
