/**
 * The verdict and notification dispatch of the fraud-detection form.
 *
 * When the user presses "Predict Fraud" the assembled record is handed to the
 * trained classifier. A label of 1 is a fraud verdict, any other label a
 * genuine one. The page shows the verdict, shows the fraud probability when
 * the classifier reports a truthy one, and sends one e-mail whose subject and
 * body template depend only on the verdict; a notice then says whether the
 * e-mail went out.
 */
module FraudAlerts {
  import opened Wrappers
  import opened FeatureAssembler

  /**
   * The trained classifier, seen from outside: the label it predicts for a
   * record and, when it offers class probabilities at all, the probability
   * it gives to the fraud class.
   */
  datatype Classifier = Classifier(predict: Row -> int, fraudProbability: Option<Row -> real>)

  /** What the classifier says about one record. */
  datatype Prediction = Prediction(classLabel: int, probability: Option<real>)

  /** The page's reading of a label. */
  datatype Verdict = Fraudulent | Genuine

  /** The two e-mail bodies. */
  datatype MessageKind = FraudAlert | GenuineConfirmation

  /** The message handed to the mail transport. */
  datatype Email = Email(subject: string, kind: MessageKind, amount: int, probability: real)

  /** What the page shows, in the order it shows it. */
  datatype Notice =
    | FraudBanner                     // the error box announcing a fraudulent transaction
    | BlockAdvice                     // the warning to verify or block the account
    | GenuineBanner                   // the success box announcing a genuine transaction
    | ProbabilityLine(p: real)        // the fraud probability
    | SendFailed                      // the warning raised inside the e-mail sender
    | EmailSent(kind: MessageKind)    // the info box confirming delivery
    | EmailNotSent(kind: MessageKind) // the warning reporting a failed delivery

  /** The result of sending one e-mail: the message, whether it went out, what the sender showed. */
  datatype Delivery = Delivery(email: Email, sent: bool, notices: seq<Notice>)

  /** The page after a prediction, and the e-mail it tried to send. */
  datatype Outcome = Outcome(notices: seq<Notice>, email: Email)

  const FraudSubject: string := "\U{1F6A8} FRAUD ALERT: Suspicious Transaction Detected!"
  const GenuineSubject: string := "\U{2705} Transaction Verified Successfully!"

  /** Both predictions for a record; the probability is absent when the classifier offers none. */
  function Predict(model: Classifier, record: Row): (r: Prediction)
    ensures r.classLabel == model.predict(record)
    ensures r.probability.Some? <==> model.fraudProbability.Some?
    ensures r.probability.Some? ==> r.probability.value == model.fraudProbability.value(record)
  {
    Prediction(model.predict(record),
               match model.fraudProbability
               case None => None
               case Some(proba) => Some(proba(record)))
  }

  /** Label 1 is a fraud verdict; every other label a genuine one. */
  function VerdictOf(classLabel: int): (v: Verdict)
    ensures v == Fraudulent <==> classLabel == 1
  {
    if classLabel == 1 then Fraudulent else Genuine
  }

  /** Python truthiness of the optional probability: present and nonzero. */
  predicate Truthy(p: Option<real>)
    ensures p == None ==> !Truthy(p)
    ensures p == Some(0.0) ==> !Truthy(p)
    ensures p.Some? && p.value != 0.0 ==> Truthy(p)
  {
    p.Some? && p.value != 0.0
  }

  /** The probability handed to the e-mail: the reported one, or 0 when it is not truthy. */
  function ProbabilityOrZero(p: Option<real>): (q: real)
    ensures p.Some? ==> q == p.value
    ensures p.None? ==> q == 0.0
  {
    if Truthy(p) then p.value else 0.0
  }

  /** The probability line of the page: shown only for a truthy probability. */
  function ShownProbability(p: Option<real>): (shown: seq<Notice>)
    ensures |shown| <= 1
    ensures forall q :: ProbabilityLine(q) in shown <==> Truthy(p) && q == p.value
  {
    if Truthy(p) then [ProbabilityLine(p.value)] else []
  }

  /** The e-mail for a transaction: subject and body template follow the verdict alone. */
  function ComposeEmail(amount: int, probability: real, isFraud: bool): (e: Email)
    ensures e.amount == amount && e.probability == probability
  {
    if isFraud then Email(FraudSubject, FraudAlert, amount, probability)
    else Email(GenuineSubject, GenuineConfirmation, amount, probability)
  }

  /** Whether a received e-mail announces a fraud, judged by its subject alone. */
  predicate IsFraudAlert(e: Email)
  {
    e.subject == FraudSubject
  }

  /**
   * Sending the e-mail through `transport`, which says whether the message
   * went out; a failed send shows a warning and reports false.
   */
  function SendEmailAlert(amount: int, probability: real, isFraud: bool, transport: Email -> bool): (d: Delivery)
    ensures d.email == ComposeEmail(amount, probability, isFraud)
    ensures d.sent == transport(d.email)
    ensures d.notices == if d.sent then [] else [SendFailed]
  {
    var e := ComposeEmail(amount, probability, isFraud);
    if transport(e) then Delivery(e, true, []) else Delivery(e, false, [SendFailed])
  }

  /** The notice reporting whether the e-mail of a given kind went out. */
  function DeliveryNotice(kind: MessageKind, sent: bool): Notice
  {
    if sent then EmailSent(kind) else EmailNotSent(kind)
  }

  /** What the page shows before any e-mail is sent: the verdict, then the probability if truthy. */
  function VerdictNotices(prediction: Prediction): seq<Notice>
  {
    (match VerdictOf(prediction.classLabel)
     case Fraudulent => [FraudBanner, BlockAdvice]
     case Genuine => [GenuineBanner])
      + ShownProbability(prediction.probability)
  }

  /** The handler after the classifier has answered: show the verdict, send the e-mail, report delivery. */
  function HandlePrediction(amount: int, prediction: Prediction, transport: Email -> bool): (o: Outcome)
    ensures o.email == ComposeEmail(amount, ProbabilityOrZero(prediction.probability), prediction.classLabel == 1)
    ensures o.notices ==
              VerdictNotices(prediction)
              + (if transport(o.email) then [] else [SendFailed])
              + [DeliveryNotice(o.email.kind, transport(o.email))]
  {
    var isFraud := VerdictOf(prediction.classLabel) == Fraudulent;
    var kind := if isFraud then FraudAlert else GenuineConfirmation;
    var d := SendEmailAlert(amount, ProbabilityOrZero(prediction.probability), isFraud, transport);
    Outcome(VerdictNotices(prediction) + d.notices + [DeliveryNotice(kind, d.sent)], d.email)
  }

  /** Pressing "Predict Fraud": classify the assembled record and dispatch the verdict. */
  function OnPredict(input: TransactionInput, model: Classifier, transport: Email -> bool): Outcome
  {
    HandlePrediction(input.amount, Predict(model, AssembledRecord(input)), transport)
  }

  /** One run of the page: the record is always assembled, the handler runs only on a click. */
  method RunPage(input: TransactionInput, model: Classifier, transport: Email -> bool, clicked: bool)
    returns (outcome: Option<Outcome>)
    ensures outcome.Some? <==> clicked
    ensures clicked ==> outcome.value == OnPredict(input, model, transport)
    ensures clicked ==>
              outcome.value == HandlePrediction(input.amount, Predict(model, ReferenceRecord(input)), transport)
  {
    var record := AssembleFeatures(input);
    if clicked {
      var prediction := Predict(model, record);
      outcome := Some(HandlePrediction(input.amount, prediction, transport));
      AssembledIsReference(input);
    } else {
      outcome := None;
    }
  }

  // ---------------------------------------------------------------------
  // Properties of the dispatch
  // ---------------------------------------------------------------------

  /**
   * The subject is one of the two fixed subjects, chosen by the verdict, and
   * the subject alone tells a fraud alert from a confirmation.
   */
  lemma SubjectIdentifiesAlert(amount: int, probability: real, isFraud: bool)
    ensures ComposeEmail(amount, probability, isFraud).subject == if isFraud then FraudSubject else GenuineSubject
    ensures IsFraudAlert(ComposeEmail(amount, probability, isFraud)) <==> isFraud
    ensures ComposeEmail(amount, probability, isFraud).kind == if isFraud then FraudAlert else GenuineConfirmation
  {
    assert |FraudSubject| != |GenuineSubject|;
  }

  /** Subject and body template depend on the verdict alone, not on the amount or the probability. */
  lemma SubjectDependsOnlyOnVerdict(amount1: int, probability1: real, amount2: int, probability2: real, isFraud: bool)
    ensures ComposeEmail(amount1, probability1, isFraud).subject == ComposeEmail(amount2, probability2, isFraud).subject
    ensures ComposeEmail(amount1, probability1, isFraud).kind == ComposeEmail(amount2, probability2, isFraud).kind
  {
  }

  /** The page announces fraud exactly for label 1 and a genuine transaction otherwise. */
  lemma VerdictShown(amount: int, prediction: Prediction, transport: Email -> bool)
    ensures var o := HandlePrediction(amount, prediction, transport);
      && o.notices[0] == (if VerdictOf(prediction.classLabel) == Fraudulent then FraudBanner else GenuineBanner)
      && (FraudBanner in o.notices <==> prediction.classLabel == 1)
      && (BlockAdvice in o.notices <==> prediction.classLabel == 1)
      && (GenuineBanner in o.notices <==> prediction.classLabel != 1)
  {
  }

  /** The e-mail is a fraud alert exactly when the verdict is fraud, and quotes the amount entered. */
  lemma EmailMatchesVerdict(amount: int, prediction: Prediction, transport: Email -> bool)
    ensures var o := HandlePrediction(amount, prediction, transport);
      && (IsFraudAlert(o.email) <==> prediction.classLabel == 1)
      && (o.email.kind == FraudAlert <==> VerdictOf(prediction.classLabel) == Fraudulent)
      && o.email.amount == amount
  {
    SubjectIdentifiesAlert(amount, ProbabilityOrZero(prediction.probability), prediction.classLabel == 1);
  }

  /** A probability line appears exactly for a truthy probability, and shows that probability. */
  lemma ProbabilityShownIff(amount: int, prediction: Prediction, transport: Email -> bool, q: real)
    ensures ProbabilityLine(q) in HandlePrediction(amount, prediction, transport).notices <==>
              Truthy(prediction.probability) && q == prediction.probability.value
  {
  }

  /** The page never shows a probability other than the one in the e-mail, and never shows 0. */
  lemma ShownProbabilityIsEmailed(amount: int, prediction: Prediction, transport: Email -> bool, q: real)
    requires ProbabilityLine(q) in HandlePrediction(amount, prediction, transport).notices
    ensures q == HandlePrediction(amount, prediction, transport).email.probability
    ensures q != 0.0
  {
    ProbabilityShownIff(amount, prediction, transport, q);
  }

  /** The e-mailed probability is the reported one, or 0 when the classifier reports none. */
  lemma EmailedProbability(amount: int, prediction: Prediction, transport: Email -> bool)
    ensures HandlePrediction(amount, prediction, transport).email.probability ==
              match prediction.probability
              case None => 0.0
              case Some(q) => q
  {
  }

  /** A reported probability of exactly 0 is handled as if no probability had been reported. */
  lemma ZeroProbabilityAsAbsent(amount: int, classLabel: int, transport: Email -> bool)
    ensures HandlePrediction(amount, Prediction(classLabel, Some(0.0)), transport) ==
            HandlePrediction(amount, Prediction(classLabel, None), transport)
  {
  }

  /** A probability within [0, 1] stays within [0, 1] in the e-mail. */
  lemma EmailedProbabilityInRange(amount: int, prediction: Prediction, transport: Email -> bool)
    requires prediction.probability.Some? ==> 0.0 <= prediction.probability.value <= 1.0
    ensures 0.0 <= HandlePrediction(amount, prediction, transport).email.probability <= 1.0
  {
  }

  /**
   * The last notice reports the delivery: a confirmation when the transport
   * accepted the e-mail, a warning otherwise, for the e-mail's own kind.
   */
  lemma DeliveryReported(amount: int, prediction: Prediction, transport: Email -> bool)
    ensures var o := HandlePrediction(amount, prediction, transport);
      && o.notices[|o.notices| - 1] == DeliveryNotice(o.email.kind, transport(o.email))
      && (SendFailed in o.notices <==> !transport(o.email))
      && (forall k :: EmailSent(k) in o.notices <==> transport(o.email) && k == o.email.kind)
      && (forall k :: EmailNotSent(k) in o.notices <==> !transport(o.email) && k == o.email.kind)
  {
  }

  /**
   * The verdict and the probability are shown, and the e-mail is composed,
   * before the transport is involved: neither depends on whether it delivers.
   */
  lemma VerdictBeforeDelivery(amount: int, prediction: Prediction, transport: Email -> bool)
    ensures var o := HandlePrediction(amount, prediction, transport);
      && |VerdictNotices(prediction)| < |o.notices|
      && o.notices[..|VerdictNotices(prediction)|] == VerdictNotices(prediction)
      && o.email == ComposeEmail(amount, ProbabilityOrZero(prediction.probability), prediction.classLabel == 1)
  {
  }

  /** The form's default entry, classified genuine with probability 0.03. */
  lemma DefaultFormGenuine(transport: Email -> bool)
    requires transport(Email(GenuineSubject, GenuineConfirmation, 2000, 0.03))
    ensures HandlePrediction(2000, Prediction(0, Some(0.03)), transport) ==
            Outcome([GenuineBanner, ProbabilityLine(0.03), EmailSent(GenuineConfirmation)],
                    Email(GenuineSubject, GenuineConfirmation, 2000, 0.03))
  {
  }

  /** A fraud verdict whose e-mail cannot be delivered, for a classifier without probabilities. */
  lemma FraudWithoutProbabilityUndelivered(amount: int, transport: Email -> bool)
    requires !transport(Email(FraudSubject, FraudAlert, amount, 0.0))
    ensures HandlePrediction(amount, Prediction(1, None), transport) ==
            Outcome([FraudBanner, BlockAdvice, SendFailed, EmailNotSent(FraudAlert)],
                    Email(FraudSubject, FraudAlert, amount, 0.0))
  {
  }
}
