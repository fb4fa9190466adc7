/** The Python exceptions that the modelled functions can raise on inputs the
    model admits. */
module Errors {

  datatype Error =
    /** `calculate_mean` divides by the length of an empty list. */
    | ZeroDivisionError
    /** `generate_summary` reads `min_temp` after a loop that never ran. */
    | UnboundLocalError
}
