/** The prediction step: the classifier is an opaque function from the feature
    record to a label, and the page shows one of two fixed notices for it. */
module Prediction {
  import opened BookingForm
  import opened Features

  /** The two kinds of notice the page can show: an error box or a success box. */
  datatype Notice = ErrorNotice(text: string) | SuccessNotice(text: string)

  const CancellationText: string := "❌ Prediction: High chance of booking cancellation"
  const ConfirmationText: string := "✅ Prediction: Booking is likely to be confirmed"

  /** A label of 1 warns of cancellation; any other label announces confirmation. */
  function Outcome(prediction: int): (n: Notice)
    ensures n == ErrorNotice(CancellationText) <==> prediction == 1
    ensures n == SuccessNotice(ConfirmationText) <==> prediction != 1
  {
    if prediction == 1 then ErrorNotice(CancellationText) else SuccessNotice(ConfirmationText)
  }

  /** Exactly one of the two notices is shown for every label. */
  lemma OutcomeExclusive(prediction: int)
    ensures (Outcome(prediction) == ErrorNotice(CancellationText)) != (Outcome(prediction) == SuccessNotice(ConfirmationText))
  {
  }

  /** One submission: normalise, assemble, classify with the given classifier,
      and pick the notice for its label. */
  function Submit(predict: FeatureRecord -> int, b: BookingInput): (n: Notice)
    ensures n == ErrorNotice(CancellationText) <==> predict(RecordOf(b)) == 1
    ensures n == SuccessNotice(ConfirmationText) <==> predict(RecordOf(b)) != 1
  {
    Outcome(predict(RecordOf(b)))
  }

  /** The notice depends on the submission only through its record: two
      submissions that normalise alike get the same notice from any classifier. */
  lemma SubmitDependsOnlyOnRecord(predict: FeatureRecord -> int, b1: BookingInput, b2: BookingInput)
    requires Normalise(b1) == Normalise(b2)
    ensures Submit(predict, b1) == Submit(predict, b2)
  {
  }
}
