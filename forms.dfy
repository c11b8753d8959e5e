/** The value of a form's number input: the empty string, which every
    page's check refuses, or a number the user entered. The text "0" is an
    entered value: it passes those checks, since only the empty string is
    falsy. */
module Forms {
  datatype Field = Empty | Entered(value: real)
}
