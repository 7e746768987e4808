/** Outcomes of the network's operations: a value, or the exception the Python code would raise. */
module Results {

  datatype Option<+T> = None | Some(value: T)

  datatype Error =
    | ZeroFanIn(layer: nat)        // `2.0 / 0` while computing a He or Xavier scale for layer `layer`
    | ScaleNotNumeric              // a `weight_init_std` string that names no rule, multiplied with an array
    | UnknownActivation(name: string) // `activation_layer[activation]` misses
    | ShapeMismatch                // two arrays that cannot be combined
    | EmptyArgMax                  // `np.argmax` over an axis of length 0
    | AxisError                    // an array without the axis an operation asks for
    | IndexOutOfRange              // `x.shape[0]` of a rank-0 array
    | NotANumber                   // `0 / 0.0`: no matches over an empty batch give `nan`
    | Infinity                     // `k / 0.0` for `k > 0`: matches over an empty batch give `inf`

  datatype Result<+T> = Ok(value: T) | Err(error: Error)
}
