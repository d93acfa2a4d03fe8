/** Deployment-time configuration: the values the backend reads from its environment once
    at start-up (`backend.py` lines 24-37) and never changes afterwards. */
module Deployment {

  datatype Settings = Settings(
    deployment: string,     // AZURE_OAI_DEPLOYMENT, the completion model's deployment name
    searchEndpoint: string, // AZURE_SEARCH_ENDPOINT
    searchKey: string,      // AZURE_SEARCH_KEY
    searchIndex: string,    // AZURE_SEARCH_INDEX
    blobAccount: string,    // the storage account named by AZURE_BLOB_CONNECTION_STRING
    blobContainer: string   // AZURE_BLOB_CONTAINER
  )
}
