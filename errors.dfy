/** The exceptions the core raises, in one place. */
module Errors {

  datatype Error =
    | FileNotFound                 // `pd.read_csv` on a missing file
    | MissingKey(key: string)      // KeyError on an absent column, e.g. KeyError('label')
    | UrlNotText                   // `urlparse` handed an empty (NaN) url cell
    | SchemaError                  // "CSV must contain: url, ssl_certificate_valid, dns_lookup, label"
    | NoValidData                  // "No valid data to train the model."
    | ModelNotTrained              // "Model not trained. Run load_and_train_model()."
    | UnseenLabel(index: int)      // `inverse_transform` of an index that is no class
    | EndOfInput                   // `input()` with no more operator replies
}
