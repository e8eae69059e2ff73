/** The dialog that records an expense: its fields, and the submit handler
    that refuses an incomplete form and clears the form after sending. */
module ExpenseModal {
  import opened Records

  /** The object handed to `onSubmit`. parseFloat's NaN is None. */
  datatype ExpenseSubmission = ExpenseSubmission(amount: Option<real>, description: string, categoryId: string, expenseDate: string)

  /** What a submission sends, if anything: nothing while the amount or the
      category is missing, otherwise the parsed amount with the other fields. */
  function Submission(amount: string, description: string, categoryId: string, date: string, parse: string -> Option<real>): (r: Option<ExpenseSubmission>)
    ensures r.None? <==> amount == "" || categoryId == ""
    ensures r.Some? ==>
      (&& r.value.categoryId == categoryId && r.value.categoryId != ""
       && r.value.amount == parse(amount) && r.value.description == description
       && r.value.expenseDate == date)
  {
    if amount == "" || categoryId == "" then None
    else Some(ExpenseSubmission(parse(amount), description, categoryId, date))
  }

  class AddExpenseModal {
    var amount: string
    var description: string
    var categoryId: string
    var date: string

    /** now is `new Date().toISOString()` when the dialog is created. */
    constructor(now: string)
      ensures amount == "" && description == "" && categoryId == ""
      ensures date == DatePart(now)
    {
      amount, description, categoryId := "", "", "";
      date := DatePart(now);
    }

    method SetAmount(value: string)
      modifies this
      ensures amount == value
      ensures description == old(description) && categoryId == old(categoryId) && date == old(date)
    {
      amount := value;
    }

    method SetDescription(value: string)
      modifies this
      ensures description == value
      ensures amount == old(amount) && categoryId == old(categoryId) && date == old(date)
    {
      description := value;
    }

    method SetDate(value: string)
      modifies this
      ensures date == value
      ensures amount == old(amount) && description == old(description) && categoryId == old(categoryId)
    {
      date := value;
    }

    /** A click on a category button (`setCategoryId(cat.id)`). */
    method PickCategory(cat: Category)
      modifies this
      ensures categoryId == cat.id
      ensures amount == old(amount) && description == old(description) && date == old(date)
    {
      categoryId := cat.id;
    }

    /** `handleSubmit`: an incomplete form is left as it is and the dialog
        stays open; otherwise the expense is sent, amount, description and
        category are cleared, the date is kept, and the dialog asks to close. */
    method HandleSubmit(parse: string -> Option<real>) returns (sent: Option<ExpenseSubmission>, close: bool)
      modifies this
      ensures sent == Submission(old(amount), old(description), old(categoryId), old(date), parse)
      ensures close <==> sent.Some?
      ensures sent.None? ==> amount == old(amount) && description == old(description) && categoryId == old(categoryId)
      ensures sent.Some? ==> amount == "" && description == "" && categoryId == ""
      ensures date == old(date)
    {
      sent := Submission(amount, description, categoryId, date, parse);
      if sent.None? {
        close := false;
      } else {
        amount, description, categoryId := "", "", "";
        close := true;
      }
    }

    /** Two clicks on the button in a row send at most one expense: the first
        submission empties the form that the second would need. */
    method SubmitTwice(parse: string -> Option<real>) returns (first: Option<ExpenseSubmission>, second: Option<ExpenseSubmission>)
      modifies this
      ensures first == Submission(old(amount), old(description), old(categoryId), old(date), parse)
      ensures second.None?
    {
      var close;
      first, close := HandleSubmit(parse);
      second, close := HandleSubmit(parse);
    }
  }
}
