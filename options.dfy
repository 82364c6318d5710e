/** The host language's optional value, used where the library returns
    "an element or nothing" (a generator's next element, Step's init). */
module Options {
  datatype Option<+T> = None | Some(value: T)
}
