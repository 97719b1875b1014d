/** The data the dashboard exchanges with the prediction service: the customer
    feature record, the service's answers, and the error a failed request raises. */
module Client {
  import opened Js

  /** The ten numeric features of one customer, as the JSON body of `/predict`. */
  datatype CustomerFeatures = CustomerFeatures(
    creditScore: Number,
    age: Number,
    tenure: Number,
    balance: Number,
    numOfProducts: Number,
    hasCrCard: Number,
    isActiveMember: Number,
    estimatedSalary: Number,
    geographyGermany: Number,
    geographySpain: Number)

  /** The names of the feature record's fields. */
  datatype Field =
    | CreditScore | Age | Tenure | Balance | NumOfProducts
    | HasCrCard | IsActiveMember | EstimatedSalary
    | GeographyGermany | GeographySpain
  {
    /** The field's key in the JSON body and its column name in a batch file. */
    function Name(): string {
      match this
      case CreditScore => "CreditScore"
      case Age => "Age"
      case Tenure => "Tenure"
      case Balance => "Balance"
      case NumOfProducts => "NumOfProducts"
      case HasCrCard => "HasCrCard"
      case IsActiveMember => "IsActiveMember"
      case EstimatedSalary => "EstimatedSalary"
      case GeographyGermany => "Geography_Germany"
      case GeographySpain => "Geography_Spain"
    }

    predicate IsGeography() {
      this == GeographyGermany || this == GeographySpain
    }
  }

  function Get(f: CustomerFeatures, field: Field): Number {
    match field
    case CreditScore => f.creditScore
    case Age => f.age
    case Tenure => f.tenure
    case Balance => f.balance
    case NumOfProducts => f.numOfProducts
    case HasCrCard => f.hasCrCard
    case IsActiveMember => f.isActiveMember
    case EstimatedSalary => f.estimatedSalary
    case GeographyGermany => f.geographyGermany
    case GeographySpain => f.geographySpain
  }

  /** `{ ...f, [field]: v }`: the record with one field replaced. */
  function With(f: CustomerFeatures, field: Field, v: Number): (r: CustomerFeatures)
    ensures Get(r, field) == v
    ensures forall g: Field :: g != field ==> Get(r, g) == Get(f, g)
  {
    match field
    case CreditScore => f.(creditScore := v)
    case Age => f.(age := v)
    case Tenure => f.(tenure := v)
    case Balance => f.(balance := v)
    case NumOfProducts => f.(numOfProducts := v)
    case HasCrCard => f.(hasCrCard := v)
    case IsActiveMember => f.(isActiveMember := v)
    case EstimatedSalary => f.(estimatedSalary := v)
    case GeographyGermany => f.(geographyGermany := v)
    case GeographySpain => f.(geographySpain := v)
  }

  /** The body of a successful `/predict` answer, as the client reads it. */
  datatype PredictionResponse = PredictionResponse(churnProbability: real, prediction: int, riskLevel: string)

  /** The body of a successful `/health` answer. */
  datatype HealthBody = HealthBody(status: string, modelLoaded: bool)

  /** The body of a successful `/drift/check` answer. */
  datatype DriftBody = DriftBody(status: string, featuresAnalyzed: nat, featuresDrifted: nat)

  /** What a rejected request carries: the server's `detail`, when the response
      has one, and the error's own message. */
  datatype HttpError = HttpError(detail: Option<string>, message: string)

  /** The settled result of one awaited request. */
  datatype Outcome<T> = Ok(value: T) | Fail(error: HttpError)

  /** `err.response?.data?.detail || err.message || fallback`. */
  function ErrorText(e: HttpError, fallback: string): (r: string)
    ensures e.detail.Some? && NonEmpty(e.detail.value) ==> r == e.detail.value
    ensures (e.detail.None? || !NonEmpty(e.detail.value)) && NonEmpty(e.message) ==> r == e.message
    ensures r == fallback || r == e.message || (e.detail.Some? && r == e.detail.value)
    ensures NonEmpty(fallback) ==> NonEmpty(r)
  {
    if e.detail.Some? && NonEmpty(e.detail.value) then e.detail.value
    else if NonEmpty(e.message) then e.message
    else fallback
  }
}
