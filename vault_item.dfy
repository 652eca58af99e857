/**
 * The vault item as the dashboard components see it (the `Password` interface that
 * Dashboard, PasswordCard and PasswordModal each declare), and the form the modal edits.
 */
module VaultItem {
  import opened Wrappers

  /** A decrypted-for-display vault item; `pin` is whatever the store holds (an envelope, or legacy plaintext). */
  datatype Item = Item(
    id: string,
    title: string,
    username: string,
    password: string,
    website: string,
    category: string,
    notes: string,
    pin: Option<string>,
    createdAt: Option<string>,
    updatedAt: Option<string>)

  /** The fields the save handler reads: `Omit<Password, 'id' | 'created_at' | 'updated_at'>`. */
  datatype Form = Form(
    title: string,
    username: string,
    password: string,
    website: string,
    category: string,
    notes: string,
    pin: Option<string>)

  /** `if (password.pin)`: the item is PIN-protected. */
  predicate HasPin(item: Item) {
    Truthy(item.pin)
  }

  /** The form `{ ...password }` starts from when an item is edited. */
  function FormOf(item: Item): Form {
    Form(item.title, item.username, item.password, item.website, item.category, item.notes, item.pin)
  }

  /** The five categories the vault offers. */
  const CATEGORIES: seq<string> := ["social", "work", "finance", "entertainment", "other"]
}
