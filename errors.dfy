/** Failure values shared by every module: the exceptions the Python code raises
    (or lets numpy raise) become `Failure(e)` instead of a stack unwind. */
module Errors {

  datatype Error =
    | EmptyArray        // numpy reduction (min, max, convolve) over an empty array: ValueError
    | ShapeMismatch     // element-wise arithmetic over arrays of different lengths: ValueError
    | IndexOutOfRange   // an index past the end of a list or array: IndexError
    | NonFinite         // a division by zero whose inf/nan result the model does not carry further
    | NotADictionary    // figure_parameters given something that is not a dict
    | UndefinedName     // a name used in an except branch that was never bound: NameError
    | BadBrackets       // latex_unit given a bracket style other than "round" or "square"
    | BadFigureParams   // standard_figure given fig_params of an unsupported type

  datatype Option<+T> = None | Some(value: T)

  datatype Result<+T> = Success(value: T) | Failure(error: Error)
}
