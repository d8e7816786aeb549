/** The friendly messages of lib/supabase/errors.ts for a few Postgres and
    PostgREST error codes. Only the `code` of an error is read; the lookup
    goes through a plain object, whose numeric key `400` is the text "400". */
module PostgrestErrors {
  import opened Basics

  datatype PostgrestError = PostgrestError(code: string, message: string)

  const MissingTablesMessage: string :=
    "Sapling couldn’t find the required tables. Run the SQL in supabase/migrations/0001_core_schema.sql."
  const RowSecurityMessage: string :=
    "Supabase rejected the request due to row-level security. Ensure your policies allow the operation."
  const RowSecurityBlockedMessage: string :=
    "Row Level Security is enabled and blocked the request. Confirm the user is authenticated and policies are configured."
  const BadRequestMessage: string :=
    "Supabase reported a bad request. Double-check the sent payload and schema."

  /** `ERROR_MESSAGES`, its keys as the object holds them. */
  const ErrorMessages: map<string, string> := map[
    "42P01" := MissingTablesMessage,
    "42501" := RowSecurityMessage,
    "P0001" := RowSecurityMessage,
    "PGRST301" := RowSecurityBlockedMessage,
    "400" := BadRequestMessage
  ]

  /** `describePostgrestError`: no message for a missing error, the table's
      message for a known code, and none for any other code. */
  function DescribePostgrestError(error: Option<PostgrestError>): (r: Option<string>)
    ensures error.None? ==> r.None?
    ensures error.Some? && error.value.code in ErrorMessages ==> r == Some(ErrorMessages[error.value.code])
    ensures error.Some? && error.value.code !in ErrorMessages ==> r.None?
  {
    match error
    case None => None
    case Some(e) => if e.code in ErrorMessages then Some(ErrorMessages[e.code]) else None
  }

  /** The table knows exactly five codes. */
  lemma KnownCodes(code: string)
    ensures code in ErrorMessages <==>
              code == "42P01" || code == "42501" || code == "P0001" || code == "PGRST301" || code == "400"
  {
  }

  /** The two row-level-security codes share one message, and the numeric
      key answers the text code "400". */
  lemma SharedMessages(message: string)
    ensures DescribePostgrestError(Some(PostgrestError("42501", message)))
            == DescribePostgrestError(Some(PostgrestError("P0001", message)))
            == Some(RowSecurityMessage)
    ensures DescribePostgrestError(Some(PostgrestError("400", message))) == Some(BadRequestMessage)
  {
  }

  /** The message depends on the code alone, never on the error's own text. */
  lemma DescriptionIgnoresMessage(code: string, m1: string, m2: string)
    ensures DescribePostgrestError(Some(PostgrestError(code, m1)))
            == DescribePostgrestError(Some(PostgrestError(code, m2)))
  {
  }

  /** Every message the helper gives is one of the four texts of the table. */
  lemma DescriptionIsTableText(error: Option<PostgrestError>)
    ensures DescribePostgrestError(error).Some? ==>
              DescribePostgrestError(error).value in
                {MissingTablesMessage, RowSecurityMessage, RowSecurityBlockedMessage, BadRequestMessage}
  {
    if error.Some? && error.value.code in ErrorMessages {
      KnownCodes(error.value.code);
    }
  }

  /** Codes differing only in case are different keys: the lookup is exact. */
  lemma LookupIsCaseSensitive(message: string)
    ensures DescribePostgrestError(Some(PostgrestError("p0001", message))).None?
    ensures DescribePostgrestError(Some(PostgrestError("pgrst301", message))).None?
  {
    KnownCodes("p0001");
    KnownCodes("pgrst301");
  }
}
