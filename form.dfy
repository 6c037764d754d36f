/** The delivery-details form: a step counter over the five fields and the
    answers given so far. Step 5 means every prompt has been answered and
    the form waits for Confirm. */
module Form {
  import opened Text
  import opened Validation
  import opened Keyboards

  /** DELIVERY_FIELDS, in the order they are asked. */
  const Fields: seq<string> := ["name", "house", "street", "city", "postcode"]

  datatype FormState = FormState(step: nat, data: map<string, string>)

  predicate WellFormed(f: FormState) {
    f.step <= |Fields| && forall k :: k in f.data ==> k in Fields
  }

  /** Every field before the current step has an answer. */
  predicate Answered(f: FormState) {
    forall i :: 0 <= i < f.step && i < |Fields| ==> Fields[i] in f.data
  }

  /** All five answers are there: what placing the order reads. */
  predicate Complete(f: FormState) {
    forall i :: 0 <= i < |Fields| ==> Fields[i] in f.data
  }

  lemma {:induction false} FieldsDistinct()
    ensures forall i, j :: 0 <= i < j < |Fields| ==> Fields[i] != Fields[j]
  {
  }

  /** begin_checkout's fresh form: first prompt, no answers (earlier answers
      are discarded). */
  function Begin(): FormState {
    FormState(0, map[])
  }

  /** Save an accepted answer under the current field and move to the
      next prompt. */
  function Answer(f: FormState, val: string): FormState
    requires f.step < |Fields|
  {
    FormState(f.step + 1, f.data[Fields[f.step] := val])
  }

  /** A text message while the form is active: ignored once the step has
      reached 5 (the last prompt passed); otherwise the stripped text is checked against the current
      field's rule and saved when it passes. */
  function Receive(f: FormState, text: string): FormState {
    if f.step >= |Fields| then f
    else
      var val := Strip(text);
      if ValidateField(Fields[f.step], val) then Answer(f, val) else f
  }

  /** The form moves exactly when the text passes the current field's rule
      (surrounding whitespace makes no difference), and then only by saving
      the stripped text; a rejected or late message changes nothing. */
  lemma {:induction false} ReceiveOutcome(f: FormState, text: string)
    ensures f.step >= |Fields| ==> Receive(f, text) == f
    ensures f.step < |Fields| ==> (Receive(f, text) != f <==> ValidateField(Fields[f.step], text))
    ensures Receive(f, text) != f ==> f.step < |Fields| && Receive(f, text) == Answer(f, Strip(text))
  {
    if f.step < |Fields| {
      ValidateIgnoresSurroundingSpace(Fields[f.step], text);
    }
  }

  /** Receiving keeps the form well formed and every passed field answered. */
  lemma {:induction false} ReceiveKeepsInvariants(f: FormState, text: string)
    ensures WellFormed(f) ==> WellFormed(Receive(f, text))
    ensures Answered(f) ==> Answered(Receive(f, text))
  {
    if f.step < |Fields| {
      AnswerKeepsInvariants(f, Strip(text));
    }
  }

  lemma {:induction false} AnswerKeepsInvariants(f: FormState, val: string)
    requires f.step < |Fields|
    ensures WellFormed(f) ==> WellFormed(Answer(f, val))
    ensures Answered(f) ==> Answered(Answer(f, val))
  {
  }

  /** Messages one after another. */
  function ReceiveAll(f: FormState, texts: seq<string>): FormState
    decreases texts
  {
    if texts == [] then f else ReceiveAll(Receive(f, texts[0]), texts[1..])
  }

  /** cb_back_step: one step back, answers kept; nothing at the first step. */
  function Back(f: FormState): (r: FormState)
    ensures r.data == f.data
    ensures r.step == if f.step > 0 then f.step - 1 else 0
    ensures WellFormed(f) ==> WellFormed(r)
    ensures Answered(f) ==> Answered(r)
  {
    if f.step > 0 then f.(step := f.step - 1) else f
  }

  /** cb_back_to_edit: back to the last prompt, `max(0, len(fields) - 1)`,
      which for the five fields is 4; answers kept. */
  function EditAddress(f: FormState): (r: FormState)
    ensures r.data == f.data && r.step == 4
    ensures WellFormed(f) ==> WellFormed(r)
  {
    f.(step := |Fields| - 1)
  }

  /** The buttons under the form message: Confirm and edit once the step
      reaches 5 (which a form sent back by edit address reaches with
      answers missing), Back from the second prompt on, none at the first. */
  function FormKeyboard(step: nat): (buttons: seq<Callback>)
    ensures step < |Fields| ==> (BackStep in buttons <==> step > 0)
    ensures ConfirmDetails in buttons <==> step >= |Fields|
  {
    if step >= |Fields| then KbConfirmAddress()
    else if step > 0 then KbBack()
    else []
  }

  /** The form message's keyboard is no keyboard at the first prompt,
      kb_back at the later ones and kb_confirm_address once the step
      reaches 5. */
  lemma {:induction false} FormKeyboardCases(step: nat)
    ensures step == 0 ==> FormKeyboard(step) == []
    ensures 0 < step < |Fields| ==> FormKeyboard(step) == KbBack()
    ensures step >= |Fields| ==> FormKeyboard(step) == KbConfirmAddress()
  {
  }

  /** Back is offered exactly when pressing it moves the form. */
  lemma {:induction false} BackOfferedWhenItMoves(f: FormState)
    requires f.step < |Fields|
    ensures BackStep in FormKeyboard(f.step) <==> Back(f) != f
  {
  }

  /** Answers saved one after another, with no check. */
  function AnswerAll(f: FormState, vals: seq<string>): FormState
    requires f.step + |vals| <= |Fields|
    decreases vals
  {
    if vals == [] then f else AnswerAll(Answer(f, vals[0]), vals[1..])
  }

  /** Saved answers fill the fields from the current step on, in order,
      and move the step past them. */
  lemma {:induction false} AnswerAllFills(f: FormState, vals: seq<string>)
    requires f.step + |vals| <= |Fields|
    ensures AnswerAll(f, vals).step == f.step + |vals|
    ensures forall k :: f.step <= k < f.step + |vals| ==>
      Fields[k] in AnswerAll(f, vals).data && AnswerAll(f, vals).data[Fields[k]] == vals[k - f.step]
    decreases vals
  {
    if vals != [] {
      var g := Answer(f, vals[0]);
      var rest := vals[1..];
      AnswerAllFills(g, rest);
      FieldsDistinct();
      AnswerAllKeeps(g, rest, Fields[f.step]);
    }
  }

  /** Saving answers to later fields leaves an earlier field's answer. */
  lemma {:induction false} AnswerAllKeeps(f: FormState, vals: seq<string>, k: string)
    requires f.step + |vals| <= |Fields|
    requires forall i :: f.step <= i < |Fields| ==> Fields[i] != k
    requires k in f.data
    ensures var r := AnswerAll(f, vals);
            k in r.data && r.data[k] == f.data[k]
    decreases vals
  {
    if vals != [] {
      AnswerAllKeeps(Answer(f, vals[0]), vals[1..], k);
    }
  }

  /** The stripped form of each text. */
  function StripAll(texts: seq<string>): (r: seq<string>)
    ensures |r| == |texts| && forall i :: 0 <= i < |texts| ==> r[i] == Strip(texts[i])
  {
    seq(|texts|, i requires 0 <= i < |texts| => Strip(texts[i]))
  }

  lemma {:induction false} StripAllTail(texts: seq<string>)
    requires texts != []
    ensures StripAll(texts)[0] == Strip(texts[0])
    ensures StripAll(texts)[1..] == StripAll(texts[1..])
  {
    assert forall i :: 0 <= i < |texts| - 1 ==> StripAll(texts)[1..][i] == StripAll(texts[1..])[i];
  }

  /** Each text passes the rule of the field it answers, starting at the
      given step. */
  predicate AllAccepted(start: nat, texts: seq<string>)
    requires start + |texts| <= |Fields|
  {
    forall k :: start <= k < start + |texts| ==> ValidateField(Fields[k], texts[k - start])
  }

  /** Messages that each pass the rule of the field they answer are all
      saved, stripped. */
  lemma {:induction false} AcceptedTextsAreSaved(f: FormState, texts: seq<string>)
    requires f.step + |texts| <= |Fields|
    requires AllAccepted(f.step, texts)
    ensures ReceiveAll(f, texts) == AnswerAll(f, StripAll(texts))
    decreases texts
  {
    if texts != [] {
      var g := Answer(f, Strip(texts[0]));
      assert Receive(f, texts[0]) == g by {
        AllAcceptedTail(f.step, texts);
        ReceiveOutcome(f, texts[0]);
      }
      assert AllAccepted(g.step, texts[1..]) by {
        AllAcceptedTail(f.step, texts);
      }
      AcceptedTextsAreSaved(g, texts[1..]);
      StripAllTail(texts);
    }
  }

  /** The first text passes its field's rule and the rest pass theirs from
      the next step on. */
  lemma {:induction false} AllAcceptedTail(start: nat, texts: seq<string>)
    requires texts != [] && start + |texts| <= |Fields|
    requires AllAccepted(start, texts)
    ensures ValidateField(Fields[start], texts[0])
    ensures AllAccepted(start + 1, texts[1..])
  {
    var rest := texts[1..];
    forall k | start + 1 <= k < start + 1 + |rest|
      ensures ValidateField(Fields[k], rest[k - (start + 1)])
    {
      assert rest[k - (start + 1)] == texts[k - start];
    }
  }

  /** Five valid answers from a fresh form complete it, each field holding
      its stripped answer. */
  lemma {:induction false} FiveValidAnswersComplete(texts: seq<string>)
    requires |texts| == |Fields| && AllAccepted(0, texts)
    ensures var r := ReceiveAll(Begin(), texts);
            && r.step == |Fields| && Complete(r)
            && forall k :: 0 <= k < |Fields| ==> r.data[Fields[k]] == Strip(texts[k])
  {
    var f := FormState(0, map[]);
    var vals := StripAll(texts);
    AcceptedTextsAreSaved(f, texts);
    AnswerAllFills(f, vals);
    var r := AnswerAll(f, vals);
    forall k | 0 <= k < |Fields| ensures Fields[k] in r.data && r.data[Fields[k]] == Strip(texts[k]) {
      assert vals[k - f.step] == Strip(texts[k]);
    }
  }

  /** Edit-address after a fresh start jumps to the postcode prompt with no
      answers; any accepted postcode then reaches step 5 with only that
      field, so the form shows Confirm while it is not complete. */
  lemma {:induction false} EditAddressSkipsAnswers(postcode: string)
    requires ValidateField("postcode", postcode)
    ensures var f := Receive(EditAddress(Begin()), postcode);
            && f.step == |Fields| && ConfirmDetails in FormKeyboard(f.step)
            && !Complete(f) && !Answered(f)
  {
    var g := EditAddress(Begin());
    assert g == FormState(4, map[]);
    assert Fields[4] == "postcode";
    ValidateIgnoresSurroundingSpace("postcode", postcode);
    var f := Receive(g, postcode);
    assert f == FormState(5, map["postcode" := Strip(postcode)]);
    assert Fields[0] !in f.data;
  }
}
