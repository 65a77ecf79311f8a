/** The PPD template record of types/ppdTemplate.ts. */
module PpdTemplateModel {
  import opened Wrappers
  import opened RecipientModel

  datatype PpdTemplate = PpdTemplate(
    id: string,
    activationDate: string,
    name: string,
    originatingAccount: string,
    originatingAchCompanyId: string,
    companyEntryDescription: string,
    companyDiscretionaryData: Option<string>,
    templateLimit: Option<int>,
    recipients: seq<Recipient>)
}
