/** JavaScript numbers, as far as the options and payloads use them. */
module Numbers {

  datatype Number = NaN | PlusInfinity | MinusInfinity | Finite(value: real)
}
