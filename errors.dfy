/** The exceptions the modelled code raises, one constructor per Python exception kind. */
module Errors {

  datatype Error =
    /** `fastapi.HTTPException(status_code, detail)` */
    | Http(status: int, detail: string)
    /** `ValueError(message)` */
    | ValueError(message: string)
    /** a failed `assert` statement */
    | AssertionError(message: string)
    /** a method called on a value of the wrong type (`None.split`, `5.replace`) */
    | AttributeError
    /** a call with the same keyword argument given twice */
    | TypeError
    /** `NotImplementedError()` */
    | NotImplemented
    /** `KeyError(key)` on a dictionary lookup */
    | KeyError(key: string)
    /** An exception raised by code outside this model (a stock service, a carrier, the database);
        `origin` names the call that raised. */
    | Collaborator(origin: string)
}
