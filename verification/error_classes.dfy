/** How errors are classified, for the retrier and for the create path alike. */
module ErrorClasses {
  datatype ErrorClass = Retryable | RateLimited | Permanent | Unknown
}
