/** The dialog that records an income: its fields, and the submit handler that
    refuses a missing amount and clears the form after sending. */
module IncomeModal {
  import opened Records

  /** The object handed to `onSubmit`. parseFloat's NaN is None. */
  datatype IncomeSubmission = IncomeSubmission(amount: Option<real>, description: string, incomeDate: string)

  /** What a submission sends, if anything: nothing while the amount is
      missing, otherwise the parsed amount with the other fields. The
      description may be empty. */
  function Submission(amount: string, description: string, date: string, parse: string -> Option<real>): (r: Option<IncomeSubmission>)
    ensures r.None? <==> amount == ""
    ensures r.Some? ==>
      r.value.amount == parse(amount) && r.value.description == description && r.value.incomeDate == date
  {
    if amount == "" then None
    else Some(IncomeSubmission(parse(amount), description, date))
  }

  class AddIncomeModal {
    var amount: string
    var description: string
    var date: string

    /** now is `new Date().toISOString()` when the dialog is created. */
    constructor(now: string)
      ensures amount == "" && description == ""
      ensures date == DatePart(now)
    {
      amount, description := "", "";
      date := DatePart(now);
    }

    method SetAmount(value: string)
      modifies this
      ensures amount == value
      ensures description == old(description) && date == old(date)
    {
      amount := value;
    }

    method SetDescription(value: string)
      modifies this
      ensures description == value
      ensures amount == old(amount) && date == old(date)
    {
      description := value;
    }

    method SetDate(value: string)
      modifies this
      ensures date == value
      ensures amount == old(amount) && description == old(description)
    {
      date := value;
    }

    /** `handleSubmit`: without an amount nothing happens; otherwise the income
        is sent, amount and description are cleared, the date is kept, and the
        dialog asks to close. */
    method HandleSubmit(parse: string -> Option<real>) returns (sent: Option<IncomeSubmission>, close: bool)
      modifies this
      ensures sent == Submission(old(amount), old(description), old(date), parse)
      ensures close <==> sent.Some?
      ensures sent.None? ==> amount == old(amount) && description == old(description)
      ensures sent.Some? ==> amount == "" && description == ""
      ensures date == old(date)
    {
      sent := Submission(amount, description, date, parse);
      if sent.None? {
        close := false;
      } else {
        amount, description := "", "";
        close := true;
      }
    }

    /** Two clicks on the button in a row send at most one income. */
    method SubmitTwice(parse: string -> Option<real>) returns (first: Option<IncomeSubmission>, second: Option<IncomeSubmission>)
      modifies this
      ensures first == Submission(old(amount), old(description), old(date), parse)
      ensures second.None?
    {
      var close;
      first, close := HandleSubmit(parse);
      second, close := HandleSubmit(parse);
    }
  }
}
