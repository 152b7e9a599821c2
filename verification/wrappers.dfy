/** The single failure value the converter uses: Python's `None`. */
module Wrappers {

  datatype Option<+T> = None | Some(value: T)
}
