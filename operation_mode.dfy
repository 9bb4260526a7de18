/** The kind of session the manager is running. */
module OperationModes {

  datatype OperationMode = Recording | Capturing | Clipping
}
