/**
  Command-line argument checks: a date filter may only use the characters of
  an ISO timestamp, and a log file must exist and end in ".log".
*/
module Validation {
  import opened Wrappers
  import opened Records

  datatype ArgumentError =
    | InvalidDate(date: string)
    | FileNotFound(path: string)
    | InvalidExtension(path: string)

  /** The character class `[0-9T:-]`. */
  predicate DateChar(c: char) {
    ('0' <= c <= '9') || c == 'T' || c == ':' || c == '-'
  }

  /** Scans `s` left to right against the character class. */
  function AllDateChars(s: string): (b: bool)
    ensures b <==> forall i :: 0 <= i < |s| ==> DateChar(s[i])
  {
    if s == [] then true else DateChar(s[0]) && AllDateChars(s[1..])
  }

  /**
    `validate_date` as written: `re.match(r"^[0-9T:-]+$", date)`. Python's `$`
    also matches just before a newline that ends the string, so one trailing
    "\n" after the date characters is accepted as well.
  */
  function ValidateDateAsWritten(date: string): (r: Result<string, ArgumentError>)
    ensures r.Success? ==> r.value == date
    ensures r.Failure? ==> r.error == InvalidDate(date)
    ensures r.Success? <==>
      || (|date| > 0 && forall i :: 0 <= i < |date| ==> DateChar(date[i]))
      || (|date| > 1 && date[|date| - 1] == '\n' && forall i :: 0 <= i < |date| - 1 ==> DateChar(date[i]))
  {
    var core := if |date| > 0 && date[|date| - 1] == '\n' then date[..|date| - 1] else date;
    if (|date| > 0 && AllDateChars(date)) || (|core| > 0 && AllDateChars(core)) then Success(date)
    else Failure(InvalidDate(date))
  }

  /** The source accepts "2025\n", which no date-character check should let through. */
  lemma TrailingNewlineAccepted()
    ensures ValidateDateAsWritten("2025\n") == Success("2025\n")
    ensures ValidateDate("2025\n") == Failure(InvalidDate("2025\n"))
  {
    assert !DateChar("2025\n"[4]);
    assert "2025\n"[..4] == "2025";
  }

  /**
    `validate_date` as intended: the date is returned unchanged exactly when it is
    non-empty and every character is a digit, 'T', ':' or '-'.
  */
  function ValidateDate(date: string): (r: Result<string, ArgumentError>)
    ensures r.Success? <==> |date| > 0 && forall i :: 0 <= i < |date| ==> DateChar(date[i])
    ensures r.Success? ==> r.value == date
    ensures r.Failure? ==> r.error == InvalidDate(date)
  {
    if |date| > 0 && AllDateChars(date) then Success(date) else Failure(InvalidDate(date))
  }

  /**
    `validate_log_file`, with the file-system lookup passed in as `fileExists`: a
    missing file is reported first, then a name that does not end in ".log".
  */
  function ValidateLogFile(path: string, fileExists: bool): (r: Result<string, ArgumentError>)
    ensures r.Success? <==> fileExists && EndsWith(path, ".log")
    ensures r.Success? ==> r.value == path
    ensures !fileExists ==> r == Failure(FileNotFound(path))
    ensures fileExists && !EndsWith(path, ".log") ==> r == Failure(InvalidExtension(path))
  {
    if !fileExists then Failure(FileNotFound(path))
    else if EndsWith(path, ".log") then Success(path)
    else Failure(InvalidExtension(path))
  }
}
