/** The errors the core returns, one constructor per distinct error the Go code creates. */
module Errors {

  datatype Error =
    | BindFailed                      // the request body is not a valid action-run message
    | UnknownAction(identifier: string) // the trigger is none of CREATE, DAY-2, DELETE
    | PatchFailed                     // reporting the run's status to Port failed
    | EmptyEntity                     // Destroy without an entity to destroy
    | MainTFParse                     // the bootstrap template main.tf is missing or malformed
    | MainTFExecute                   // rendering the bootstrap template failed
    | TemplateRead(name: string)      // the blueprint's template file cannot be read
    | TempDirFailed                   // the working directory cannot be created
    | TerraformInstance               // the Terraform runner cannot be set up for the directory
    | WriteFailed(name: string)       // writing one of the Terraform files failed
    | InitFailed                      // `terraform init` failed
    | VarsFileFailed                  // marshalling or writing the variables file failed
    | ApplyFailed                     // `terraform apply` failed
    | ShowFailed                      // `terraform show` failed
    | IdAssertionPanic                // the entity resource's `id` attribute is not a string
    | NilValuesPanic                  // the state has no values: Go dereferences a nil pointer
}
