/** `parseErrorMessage`: the human-readable text of each invalid reason. */
module ErrorMessages {
  import opened Jmbg

  function ParseErrorMessage(reason: InvalidReason): (text: string)
    ensures reason == NotString ==> text == "Not string"
    ensures reason == MustContainExactly13Digits ==> text == "Must contain exactly 13 digits"
    ensures reason == InvalidDate ==> text == "Invalid date"
    ensures reason == InvalidControlNumber ==> text == "Invalid control number"
  {
    match reason
    case NotString => "Not string"
    case MustContainExactly13Digits => "Must contain exactly 13 digits"
    case InvalidDate => "Invalid date"
    case InvalidControlNumber => "Invalid control number"
  }

  /** The map is total and one-to-one: the text names its reason. */
  lemma ParseErrorMessageInjective(a: InvalidReason, b: InvalidReason)
    ensures ParseErrorMessage(a) == ParseErrorMessage(b) ==> a == b
    ensures ParseErrorMessage(a) != ""
  {
    if ParseErrorMessage(a) == ParseErrorMessage(b) {
      match a
      case NotString => assert ParseErrorMessage(b)[0] == 'N' && ParseErrorMessage(b)[1] == 'o';
      case MustContainExactly13Digits => assert ParseErrorMessage(b)[0] == 'M';
      case InvalidDate => assert ParseErrorMessage(b)[8] == 'd';
      case InvalidControlNumber => assert ParseErrorMessage(b)[8] == 'c';
    }
  }
}
