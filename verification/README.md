# Financial fraud detection form — a verified model

The application is a single-page form. The user enters eight details of a
bank transaction: amount, account balance, hour, account type, transaction
type, device type, location and day of the week. The page turns them into a
one-row data frame and completes that frame to the seventeen columns a
trained classifier expects. Each column the user did not supply gets a
neutral default: 0 for the numeric columns (`age`, `transaction_amount`,
`account_balance`, `transaction_hour`) and `"Unknown"` for every other
column. The frame is then re-indexed into the classifier's training order.

When the user presses "Predict Fraud", the classifier labels the record.
Label 1 means fraud and any other label means genuine. The classifier may
also report the probability of the fraud class. The page then:

- shows the verdict;
- shows the probability, but only when it is truthy;
- sends one e-mail whose subject and body template follow the verdict;
- reports whether the e-mail went out.

The project has three modules:

- `Wrappers` (`wrappers.dfy`): the optional value, Python's `None`.
- `FeatureAssembler` (`features.dfy`):
  - The frame is modelled as a sequence of named columns.
  - The column labels are an enumeration of the seventeen schema features. `Label` and `FeatureOf` translate to and from their text.
  - The fill loop is a method whose loop invariant ties it to the recursive specification `FillMissing`.
  - Re-indexing is `Project`. It fails with `None` where pandas raises `KeyError`.
  - The assembled record is proved equal to `ReferenceRecord`, an independent column-by-column table.
- `FraudAlerts` (`alerts.dfy`):
  - The classifier is a value holding two functions: the label it predicts, and, optionally, its fraud-class probability.
  - The mail transport is a function that says whether a message went out.
  - The page is modelled as the sequence of notices it shows. `RunPage` is one run of the script.

## Model

| member | source | states |
|---|---|---|
| FeatureAssembler.AllColumns | Fraud_detection_app.py:100-106 | the training schema has seventeen columns; `SchemaLabels`, `AllColumnsDistinct` and `AllColumnsComplete` state which, in which order |
| FeatureAssembler.SchemaLabels | Fraud_detection_app.py:100-106 | the schema's features carry exactly the seventeen training labels of the program, in its order |
| FeatureAssembler.LabelRoundTrip | Fraud_detection_app.py:100-106 | reading back the label of any feature yields that feature, so the seventeen column labels are pairwise distinct and the enumeration loses nothing |
| FeatureAssembler.AllColumnsDistinct | Fraud_detection_app.py:100-106 | the training schema names no column twice |
| FeatureAssembler.AllColumnsComplete | Fraud_detection_app.py:100-106 | every feature the program handles occurs in the schema, at its own position |
| FeatureAssembler.FromFormIsInputColumn | Fraud_detection_app.py:89-98 | the form supplies exactly the eight features of the frame it builds |
| FeatureAssembler.InputRow | Fraud_detection_app.py:89-98 | the frame built from the form has the eight form columns, in the order the program builds them |
| FeatureAssembler.InputRowField | Fraud_detection_app.py:89-98 | each of the form frame's eight cells is found under its own label |
| FeatureAssembler.DefaultFor | Fraud_detection_app.py:110-113 | a missing column is filled with 0 or with "Unknown", nothing else |
| FeatureAssembler.DefaultByLabel | Fraud_detection_app.py:110-113 | the default is 0 exactly when the column's label is one of the four numeric labels the program lists, and "Unknown" otherwise |
| FeatureAssembler.FillMissing | Fraud_detection_app.py:107-113 | the specification of the fill loop: it only appends columns, so the original frame is a prefix of the result; the `FillMissing…` lemmas state what it appends |
| FeatureAssembler.FillMissingColumns | Fraud_detection_app.py:107-113 | the in-place fill loop computes exactly `FillMissing`, the recursive specification whose properties are the `FillMissing…` lemmas below; its invariant is that finishing the remaining columns from the current frame gives the final frame |
| FeatureAssembler.FillMissingNames | Fraud_detection_app.py:107-113 | after the loop a label is a column exactly when it was one before or was visited |
| FeatureAssembler.FillMissingKeeps | Fraud_detection_app.py:108-109 | a column already present keeps its cell |
| FeatureAssembler.FillMissingDefaults | Fraud_detection_app.py:109-113 | a visited label that was missing gets 0 when it is numeric and "Unknown" otherwise |
| FeatureAssembler.FillMissingComplete | Fraud_detection_app.py:108-109 | on a frame that already has every visited label the loop changes nothing |
| FeatureAssembler.FillMissingIdempotent | Fraud_detection_app.py:107-113 | running the fill loop twice gives the same frame as running it once |
| FeatureAssembler.FillMissingDistinct | Fraud_detection_app.py:107-113 | the fill loop never creates a duplicate column |
| FeatureAssembler.Project | Fraud_detection_app.py:116 | re-indexing succeeds iff every requested label is a column (KeyError otherwise); the result has exactly the requested labels in the requested order, each with the frame's cell under that label |
| FeatureAssembler.AssembledRecord | Fraud_detection_app.py:89-116 | the record handed to the classifier has exactly the schema's labels in training order |
| FeatureAssembler.AssembledKeepsInput | Fraud_detection_app.py:89-116 | every field the user entered reaches the classifier unchanged, under its own label |
| FeatureAssembler.AssembledDefaults | Fraud_detection_app.py:107-116 | every column the user did not supply reaches the classifier with its default |
| FeatureAssembler.AssembleFeatures | Fraud_detection_app.py:89-116 | building, filling and re-indexing the frame yields exactly the reference record: the seventeen schema columns in training order, the form's eight fields under their labels, 0 for `age` and "Unknown" for the other eight columns |
| FeatureAssembler.InputRowIsReference | Fraud_detection_app.py:89-98 | the form's frame carries, under each of its labels, the cell of the reference table |
| FeatureAssembler.DefaultsAreReference | Fraud_detection_app.py:110-113 | of the nine columns the form does not supply only `age` is numeric; the defaults agree with the reference table |
| FeatureAssembler.CanonicalRecordIsReference | Fraud_detection_app.py:100-116 | any record in schema order that keeps the form's fields and defaults the rest is the reference record |
| FeatureAssembler.AssembledIsReference | Fraud_detection_app.py:89-116 | for every form entry, the assembled record is the reference record, column by column |
| FraudAlerts.Predict | Fraud_detection_app.py:123-126 | the label is the classifier's; the probability is present iff the classifier offers probabilities, and is then the fraud-class probability of the same record |
| FraudAlerts.VerdictOf | Fraud_detection_app.py:128-142 | a label is a fraud verdict exactly when it is 1 |
| FraudAlerts.Truthy | Fraud_detection_app.py:131-132 | Python truthiness of the reported probability, as tested here and at line 143: `None` and 0 are false, every other probability true |
| FraudAlerts.ProbabilityOrZero | Fraud_detection_app.py:135 | `prediction_proba or 0` (here and at line 147): the reported probability when there is one (a reported 0 stays 0), and 0 when there is none |
| FraudAlerts.ShownProbability | Fraud_detection_app.py:131-132 | at most one probability line is shown, and a line for `q` is shown exactly when the probability is truthy and equals `q` |
| FraudAlerts.HandlePrediction | Fraud_detection_app.py:128-151 | the e-mail is the one composed from the amount, the probability or 0, and the verdict; the page shows the verdict notices, then the sender's warning iff the transport refused, then the delivery notice for the e-mail's kind; the lemmas below draw the consequences |
| FraudAlerts.ComposeEmail | Fraud_detection_app.py:14-39 | the e-mail quotes the amount and probability it was given |
| FraudAlerts.SubjectIdentifiesAlert | Fraud_detection_app.py:16-39 | the subject is the fixed fraud subject when `is_fraud` and the fixed confirmation subject otherwise, so the subject alone tells the two apart; the body template follows `is_fraud` alike |
| FraudAlerts.SubjectDependsOnlyOnVerdict | Fraud_detection_app.py:16-39 | two e-mails for the same verdict have the same subject and body template, whatever their amounts and probabilities |
| FraudAlerts.SendEmailAlert | Fraud_detection_app.py:14-56 | the e-mail handed to the transport is the composed one; the result is whether the transport accepted it; a failure adds the sender's own warning |
| FraudAlerts.VerdictShown | Fraud_detection_app.py:128-142 | the page opens with the fraud banner for label 1 and the genuine banner otherwise; the fraud banner and the block advice appear iff the label is 1 |
| FraudAlerts.EmailMatchesVerdict | Fraud_detection_app.py:128-147 | the e-mail is a fraud alert iff the label is 1, and it quotes the amount the user entered |
| FraudAlerts.ProbabilityShownIff | Fraud_detection_app.py:128-144 | a probability line appears iff the reported probability is truthy (present and nonzero), and it shows that probability |
| FraudAlerts.ShownProbabilityIsEmailed | Fraud_detection_app.py:131-147 | a probability shown on the page is the one in the e-mail, and is never 0 |
| FraudAlerts.EmailedProbability | Fraud_detection_app.py:135-147 | the e-mailed probability is the reported one, or 0 when the classifier reports none |
| FraudAlerts.ZeroProbabilityAsAbsent | Fraud_detection_app.py:131-147 | a reported probability of exactly 0 yields the same page and e-mail as no probability |
| FraudAlerts.EmailedProbabilityInRange | Fraud_detection_app.py:124-147 | a reported probability within [0, 1] stays within [0, 1] in the e-mail |
| FraudAlerts.DeliveryReported | Fraud_detection_app.py:135-151 | the last notice reports delivery of the e-mail's own kind: a confirmation iff the transport accepted it, a warning otherwise; the sender's warning appears iff delivery failed |
| FraudAlerts.VerdictBeforeDelivery | Fraud_detection_app.py:128-151 | the verdict and probability notices come first and the e-mail is composed from the verdict alone, so neither depends on the transport |
| FraudAlerts.RunPage | Fraud_detection_app.py:89-151 | a run assembles the record and, iff the button was pressed, dispatches the prediction; the classifier sees exactly the reference record |
| FraudAlerts.DefaultFormGenuine | Fraud_detection_app.py:141-151 | an amount of 2000 classified genuine with probability 0.03 and delivered: success banner, probability line, confirmation notice, genuine e-mail |
| FraudAlerts.FraudWithoutProbabilityUndelivered | Fraud_detection_app.py:124-140 | label 1 from a classifier without probabilities, delivery failing: fraud banner, advice, no probability line, both warnings, fraud e-mail with probability 0 |

## Left out

- The page layout, widgets, titles and the wording of the notices are left out. Each notice is one constructor of `FraudAlerts.Notice`.
- The form's input bounds (amount at least 1, balance at least 0, hour 0 to 23) and its choice lists are left out. Assembly and dispatch are total, so no contract needs them.
- The classifier's internals and the loading of `fraud_detection_model.pkl` are left out. The classifier is a parameter.
- The class-probability matrix is not modelled. `FraudAlerts.Predict` yields the fraud-class entry (`[0][1]`) directly. An index error from a classifier with one class is not modelled.
- The predicted label is modelled as an integer. A classifier whose labels are not numbers is not modelled.
- SMTP, the credentials, the message headers and the MIME encoding are left out. The transport is a function that says whether the message went out. The text of the caught exception is not modelled.
- FraudAlerts.ComposeEmail: the body text and the two-decimal percentage formatting are not modelled. The body is represented by its template kind, the amount and the probability.
- The catch-all handler around the prediction (lines 153-155) is left out. It covers only `predict`, `predict_proba` and the dispatch at lines 123-151; an exception raised there (by the classifier or the mail sender) is not modelled. The frame building and re-indexing at lines 89-116 lie outside it. The re-index at line 116 cannot fail on the assembled frame: `FeatureAssembler.FilledHasEveryColumn` shows the filled frame has every schema column, so `FeatureAssembler.Project` succeeds in `FeatureAssembler.AssembledRecord`.
- Probabilities are exact reals. Floating-point rounding and NaN (which Python treats as truthy) are not modelled.
- The data frame is a value. Aliasing and pandas dtypes are not modelled.
- Frames with duplicate labels are not modelled. The record handed to the classifier has none: its labels are the schema's (`FeatureAssembler.AssembledRecord`), and the schema names no column twice (`FeatureAssembler.AllColumnsDistinct`).
