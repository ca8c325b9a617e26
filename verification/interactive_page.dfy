/** The interactive demo page: an unbounded counter and a three-field contact form. */
module InteractivePage {

  /** The three named inputs of the form. */
  datatype Field = Name | Email | Message

  /** The form draft. */
  datatype FormData = FormData(name: string, email: string, message: string) {
    /** The value of one named input. */
    function Get(field: Field): string {
      match field
      case Name => name
      case Email => email
      case Message => message
    }
  }

  /** The draft after an input event from `field`: that field holds `value`,
      the other two are as before. */
  function WithField(form: FormData, field: Field, value: string): (r: FormData)
    ensures r.Get(field) == value
    ensures forall other :: other != field ==> r.Get(other) == form.Get(other)
  {
    match field
    case Name => form.(name := value)
    case Email => form.(email := value)
    case Message => form.(message := value)
  }

  /** The component's state: the form draft, the "submitted" banner flag and the counter. */
  class Test1 {
    var formData: FormData
    var submitted: bool
    var count: int

    /** The state on first render. */
    constructor ()
      ensures formData == FormData("", "", "")
      ensures !submitted && count == 0
    {
      formData := FormData("", "", "");
      submitted := false;
      count := 0;
    }

    /** The "+" button: no upper bound. */
    method Increment()
      modifies this`count
      ensures count == old(count) + 1
    {
      count := count + 1;
    }

    /** The "-" button: no lower bound, so the count can go below zero. */
    method Decrement()
      modifies this`count
      ensures count == old(count) - 1
    {
      count := count - 1;
    }

    /** The Reset button. */
    method Reset()
      modifies this`count
      ensures count == 0
    {
      count := 0;
    }

    /** An input event from one of the form's fields. */
    method HandleInputChange(field: Field, value: string)
      modifies this`formData
      ensures formData == WithField(old(formData), field, value)
    {
      formData := WithField(formData, field, value);
    }

    /** Submitting the form raises the banner; the draft and the counter stay. */
    method HandleSubmit()
      modifies this`submitted
      ensures submitted
    {
      submitted := true;
    }
  }

  /** "+" then "-" gives back the count, from any value. */
  method IncrementThenDecrement(page: Test1)
    modifies page`count
    ensures page.count == old(page.count)
  {
    page.Increment();
    page.Decrement();
  }

  /** "-" then "+" gives back the count, from any value. */
  method DecrementThenIncrement(page: Test1)
    modifies page`count
    ensures page.count == old(page.count)
  {
    page.Decrement();
    page.Increment();
  }

  /** On a fresh page "-" takes the count to -1: there is no clamp at zero. */
  method DecrementFromStart() returns (count: int)
    ensures count == -1
  {
    var page := new Test1();
    page.Decrement();
    count := page.count;
  }
}
